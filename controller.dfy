/**
 * The EEfRT offer controller of src/utils.py: it builds one block's sequence of
 * (probability, hard reward) offers from the factorial grid of levels, and it owns
 * the session's block stream, from which forced choices and reward draws are taken.
 */
module OfferController {
  import opened Wrappers
  import opened Values
  import opened RandomStream

  /** One cell of the factorial design: an offer's win probability and hard-option reward. */
  datatype Combo = Combo(probability: real, hardReward: real)

  datatype ControllerError =
    | UnsupportedConfigKeys(keys: set<string>)
    | BadConfigValue(key: string)
    | NoOfferCombinations

  /** The arguments from_dict hands to the constructor. */
  datatype Config = Config(
    probabilityLevels: seq<real>,
    hardRewardLevels: seq<real>,
    randomizeOrder: bool,
    noChoiceHardProb: real,
    enableLogging: bool)

  const DefaultProbabilityLevels: seq<real> := [0.12, 0.50, 0.88]
  const DefaultHardRewardLevels: seq<real> := [1.24, 1.68, 2.11, 2.55, 2.99, 3.43, 3.86, 4.30]

  const AllowedKeys: set<string> :=
    {"probability_levels", "hard_reward_levels", "randomize_order", "no_choice_hard_prob", "enable_logging"}

  const DefaultConfig: Config :=
    Config(DefaultProbabilityLevels, DefaultHardRewardLevels, true, 0.5, true)

  // ---------------------------------------------------------------------------
  // The factorial grid and its repetition
  // ---------------------------------------------------------------------------

  /** One row of the grid: probability p with every hard-reward level, in order. */
  function Row(p: real, hs: seq<real>): (r: seq<Combo>)
    ensures |r| == |hs|
    ensures forall j :: 0 <= j < |hs| ==> r[j] == Combo(p, hs[j])
  {
    seq(|hs|, j requires 0 <= j < |hs| => Combo(p, hs[j]))
  }

  /** itertools.product(ps, hs): the grid, probability-major. */
  function Product(ps: seq<real>, hs: seq<real>): (r: seq<Combo>)
    ensures |r| == |ps| * |hs|
    ensures r == [] <==> ps == [] || hs == []
  {
    if ps == [] then [] else Row(ps[0], hs) + Product(ps[1..], hs)
  }

  /** combos * k: the list repeated k times. */
  function Repeat(s: seq<Combo>, k: nat): (r: seq<Combo>)
    ensures |r| == k * |s|
  {
    if k == 0 then [] else s + Repeat(s, k - 1)
  }

  /** Position i * |hs| + j of the grid holds (ps[i], hs[j]): the grid is probability-major. */
  lemma {:induction false} ProductAt(ps: seq<real>, hs: seq<real>, i: nat, j: nat)
    requires i < |ps| && j < |hs|
    ensures i * |hs| + j < |Product(ps, hs)|
    ensures Product(ps, hs)[i * |hs| + j] == Combo(ps[i], hs[j])
  {
    var m := |hs|;
    var row := Row(ps[0], hs);
    var rest := Product(ps[1..], hs);
    assert Product(ps, hs) == row + rest;
    if i == 0 {
      assert row[j] == Combo(ps[0], hs[j]);
    } else {
      ProductAt(ps[1..], hs, i - 1, j);
      MulStep(i, m);
      assert (row + rest)[m + ((i - 1) * m + j)] == rest[(i - 1) * m + j];
    }
  }

  /** i * m == m + (i - 1) * m, kept apart so that the solver sees it alone. */
  lemma MulStep(i: nat, m: nat)
    requires 0 < i
    ensures i * m == m + (i - 1) * m
  {
  }

  /** The grid holds exactly the pairs of a probability level and a reward level. */
  lemma {:induction false} ProductMember(ps: seq<real>, hs: seq<real>, c: Combo)
    ensures c in Product(ps, hs) <==> c.probability in ps && c.hardReward in hs
  {
    if ps != [] {
      ProductMember(ps[1..], hs, c);
      assert ps == [ps[0]] + ps[1..];
      if c.probability == ps[0] && c.hardReward in hs {
        var j :| 0 <= j < |hs| && hs[j] == c.hardReward;
        assert Row(ps[0], hs)[j] == c;
      }
    }
  }

  /** No value occurs twice. */
  predicate Distinct(s: seq<real>)
  {
    forall i, j :: 0 <= i < j < |s| ==> s[i] != s[j]
  }

  /** With distinct levels, every cell of the grid occurs exactly once. */
  lemma {:induction false} ProductOnce(ps: seq<real>, hs: seq<real>, c: Combo)
    requires Distinct(ps) && Distinct(hs)
    ensures multiset(Product(ps, hs))[c] == if c.probability in ps && c.hardReward in hs then 1 else 0
  {
    if ps != [] {
      ProductOnce(ps[1..], hs, c);
      var row := Row(ps[0], hs);
      assert Product(ps, hs) == row + Product(ps[1..], hs);
      assert ps == [ps[0]] + ps[1..];
      RowOnce(ps[0], hs, c);
      if c.probability == ps[0] {
        assert c.probability !in ps[1..];
      }
    }
  }

  /** With distinct rewards, a row holds each of its offers once. */
  lemma {:induction false} RowOnce(p: real, hs: seq<real>, c: Combo)
    requires Distinct(hs)
    ensures multiset(Row(p, hs))[c] == if c.probability == p && c.hardReward in hs then 1 else 0
    decreases |hs|
  {
    if hs != [] {
      var r := Row(p, hs);
      var tail := Row(p, hs[1..]);
      assert r[1..] == tail;
      assert r == [Combo(p, hs[0])] + tail;
      assert multiset(r) == multiset{Combo(p, hs[0])} + multiset(tail);
      assert hs == [hs[0]] + hs[1..];
      assert Distinct(hs[1..]);
      RowOnce(p, hs[1..], c);
    }
  }

  /** Each element of combos * k occurs k times as often as in combos. */
  lemma {:induction false} RepeatCount(s: seq<Combo>, k: nat, c: Combo)
    ensures multiset(Repeat(s, k))[c] == k * multiset(s)[c]
  {
    if k > 0 {
      RepeatCount(s, k - 1, c);
      assert Repeat(s, k) == s + Repeat(s, k - 1);
      assert multiset(Repeat(s, k))[c] == multiset(s)[c] + multiset(Repeat(s, k - 1))[c];
      MulStep(k, multiset(s)[c]);
    }
  }

  // ---------------------------------------------------------------------------
  // What one block is
  // ---------------------------------------------------------------------------

  /**
   * offers is a block of n offers over combos: the grid repeated n / |combos| times
   * plus a remainder drawn from the grid without replacement; unshuffled, the repeats
   * come first in grid order; shuffled, only the multiset is kept.
   */
  ghost predicate IsBlock(offers: seq<Combo>, combos: seq<Combo>, n: nat, randomized: bool)
    requires combos != []
  {
    var base := Repeat(combos, n / |combos|);
    && |offers| == n
    && multiset(base) <= multiset(offers)
    && multiset(offers) - multiset(base) <= multiset(combos)
    && (!randomized ==> |base| <= |offers| && offers[..|base|] == base)
  }

  /** The repeated grid followed by a remainder sampled from the grid is a block, in either order mode. */
  lemma BlockOfParts(combos: seq<Combo>, n: nat, picked: seq<Combo>)
    requires combos != []
    requires |picked| == n % |combos| && multiset(picked) <= multiset(combos)
    ensures IsBlock(Repeat(combos, n / |combos|) + picked, combos, n, false)
    ensures IsBlock(Repeat(combos, n / |combos|) + picked, combos, n, true)
  {
    var base := Repeat(combos, n / |combos|);
    var offers := base + picked;
    DivMod(n, |combos|);
    assert offers[..|base|] == base;
    assert multiset(offers) - multiset(base) == multiset(picked);
  }

  /** Reordering a block keeps it a block, though no longer in grid order. */
  lemma BlockReordered(offers: seq<Combo>, reordered: seq<Combo>, combos: seq<Combo>, n: nat, randomized: bool)
    requires combos != [] && IsBlock(offers, combos, n, randomized)
    requires multiset(reordered) == multiset(offers)
    ensures IsBlock(reordered, combos, n, true)
  {
    assert |reordered| == |multiset(reordered)| == |multiset(offers)| == |offers|;
  }

  lemma DivMod(n: nat, c: nat)
    requires 0 < c
    ensures (n / c) * c + n % c == n && n % c < c
  {
  }

  /** Draws one block takes from its stream: the remainder sample, then the shuffle. */
  function BlockDraws(n: nat, combos: nat, randomized: bool): nat
    requires 0 < n && 0 < combos
  {
    n % combos + (if randomized then n - 1 else 0)
  }

  /** In a block, each cell of the grid appears reps or reps + 1 times as often as in the grid. */
  lemma BlockBalance(offers: seq<Combo>, combos: seq<Combo>, n: nat, randomized: bool, c: Combo)
    requires combos != [] && IsBlock(offers, combos, n, randomized)
    ensures (n / |combos|) * multiset(combos)[c] <= multiset(offers)[c]
    ensures multiset(offers)[c] <= (n / |combos| + 1) * multiset(combos)[c]
  {
    var reps := n / |combos|;
    var base := multiset(Repeat(combos, reps));
    RepeatCount(combos, reps, c);
    CountBetween(base, multiset(offers), multiset(combos), c);
    MulStep(reps + 1, multiset(combos)[c]);
  }

  /** base <= all and all - base <= cell bound the count of c in all. */
  lemma CountBetween(base: multiset<Combo>, all: multiset<Combo>, cell: multiset<Combo>, c: Combo)
    requires base <= all && all - base <= cell
    ensures base[c] <= all[c] <= base[c] + cell[c]
  {
    assert (all - base)[c] == all[c] - base[c];
  }

  /** With distinct levels, every offer of the grid appears reps or reps + 1 times in a block. */
  lemma BlockBalanceDistinct(offers: seq<Combo>, ps: seq<real>, hs: seq<real>, n: nat, randomized: bool, c: Combo)
    requires Distinct(ps) && Distinct(hs) && ps != [] && hs != []
    requires IsBlock(offers, Product(ps, hs), n, randomized)
    ensures var reps := n / (|ps| * |hs|);
      if c.probability in ps && c.hardReward in hs
      then reps <= multiset(offers)[c] <= reps + 1
      else multiset(offers)[c] == 0
  {
    ProductOnce(ps, hs, c);
    BlockBalance(offers, Product(ps, hs), n, randomized, c);
  }

  /** Seq of reals from a list of values, each through float(); None when some element does not convert. */
  function FloatsOf(items: seq<Value>): (r: Option<seq<real>>)
    ensures r.Some? <==> forall i :: 0 <= i < |items| ==> AsFloat(items[i]).Some?
    ensures r.Some? ==> |r.value| == |items| && forall i :: 0 <= i < |items| ==> AsFloat(items[i]) == Some(r.value[i])
  {
    if items == [] then Some([])
    else match AsFloat(items[0])
      case None => None
      case Some(x) =>
        var rest := FloatsOf(items[1..]);
        assert forall i :: 1 <= i < |items| ==> items[i] == items[1..][i - 1];
        match rest
        case None => None
        case Some(xs) => Some([x] + xs)
  }

  function FloatValues(xs: seq<real>): seq<Value>
  {
    seq(|xs|, i requires 0 <= i < |xs| => PyFloat(xs[i]))
  }

  /** Reading back the float values of a list of reals gives the reals. */
  lemma {:induction false} FloatsOfFloatValues(xs: seq<real>)
    ensures FloatsOf(FloatValues(xs)) == Some(xs)
  {
    if xs != [] {
      FloatsOfFloatValues(xs[1..]);
      assert FloatValues(xs)[1..] == FloatValues(xs[1..]);
      assert [xs[0]] + xs[1..] == xs;
    }
  }

  function Get(config: map<string, Value>, key: string, default: Value): Value
  {
    if key in config then config[key] else default
  }

  /** list(config.get(key, default)): the given value as a list, or the default levels; None where list() raises. */
  function LevelItems(config: map<string, Value>, key: string, default: seq<real>): (r: Option<seq<Value>>)
    ensures key !in config ==> r == Some(FloatValues(default))
    ensures key in config && config[key].PyList? ==> r == Some(config[key].items)
    ensures key in config ==> (r.None? <==> !config[key].PyList? && !config[key].PyStr?)
  {
    AsList(Get(config, key, PyList(FloatValues(default))))
  }

  /**
   * from_dict's reading of a configuration: any key outside the five allowed names is
   * rejected before anything else; absent keys take their defaults. The failures come in
   * Python's order: list() of each level list and float() of no_choice_hard_prob in
   * from_dict, then float() of each level in __post_init__.
   */
  function ConfigFrom(config: map<string, Value>): (r: Result<Config, ControllerError>)
    ensures (r.Failure? && r.error.UnsupportedConfigKeys?) <==> !(config.Keys <= AllowedKeys)
    ensures r.Failure? && r.error.UnsupportedConfigKeys? ==> r.error.keys == config.Keys - AllowedKeys
    ensures config == map[] ==> r == Success(DefaultConfig)
    ensures config.Keys <= AllowedKeys ==>
      var probItems := LevelItems(config, "probability_levels", DefaultProbabilityLevels);
      var rewardItems := LevelItems(config, "hard_reward_levels", DefaultHardRewardLevels);
      var noChoice := AsFloat(Get(config, "no_choice_hard_prob", PyFloat(0.5)));
      && (probItems.None? ==> r == Failure(BadConfigValue("probability_levels")))
      && (probItems.Some? && rewardItems.None? ==> r == Failure(BadConfigValue("hard_reward_levels")))
      && (probItems.Some? && rewardItems.Some? && noChoice.None? ==> r == Failure(BadConfigValue("no_choice_hard_prob")))
      && (probItems.Some? && rewardItems.Some? && noChoice.Some? && FloatsOf(probItems.value).None? ==>
            r == Failure(BadConfigValue("probability_levels")))
      && (probItems.Some? && rewardItems.Some? && noChoice.Some? && FloatsOf(probItems.value).Some? && FloatsOf(rewardItems.value).None? ==>
            r == Failure(BadConfigValue("hard_reward_levels")))
      && (probItems.Some? && rewardItems.Some? && noChoice.Some? && FloatsOf(probItems.value).Some? && FloatsOf(rewardItems.value).Some? ==>
            r.Success?)
    ensures r.Success? ==>
      && Some(r.value.probabilityLevels) == FloatsOf(LevelItems(config, "probability_levels", DefaultProbabilityLevels).value)
      && Some(r.value.hardRewardLevels) == FloatsOf(LevelItems(config, "hard_reward_levels", DefaultHardRewardLevels).value)
      && Some(r.value.noChoiceHardProb) == AsFloat(Get(config, "no_choice_hard_prob", PyFloat(0.5)))
    ensures r.Success? ==> r.value.randomizeOrder == ("randomize_order" !in config || Truthy(config["randomize_order"]))
    ensures r.Success? ==> r.value.enableLogging == ("enable_logging" !in config || Truthy(config["enable_logging"]))
  {
    FloatsOfFloatValues(DefaultProbabilityLevels);
    FloatsOfFloatValues(DefaultHardRewardLevels);
    var extra := config.Keys - AllowedKeys;
    if extra != {} then
      Failure(UnsupportedConfigKeys(extra))
    else
      var probItems := LevelItems(config, "probability_levels", DefaultProbabilityLevels);
      var rewardItems := LevelItems(config, "hard_reward_levels", DefaultHardRewardLevels);
      var noChoice := AsFloat(Get(config, "no_choice_hard_prob", PyFloat(0.5)));
      if probItems.None? then Failure(BadConfigValue("probability_levels"))
      else if rewardItems.None? then Failure(BadConfigValue("hard_reward_levels"))
      else if noChoice.None? then Failure(BadConfigValue("no_choice_hard_prob"))
      else
        var probs := FloatsOf(probItems.value);
        var rewards := FloatsOf(rewardItems.value);
        if probs.None? then Failure(BadConfigValue("probability_levels"))
        else if rewards.None? then Failure(BadConfigValue("hard_reward_levels"))
        else
          Success(Config(
            probs.value,
            rewards.value,
            Truthy(Get(config, "randomize_order", PyBool(true))),
            noChoice.value,
            Truthy(Get(config, "enable_logging", PyBool(true)))))
  }

  // ---------------------------------------------------------------------------
  // Forced choices and reward draws
  // ---------------------------------------------------------------------------

  /** The key a forced choice gives for draw u and hard probability q. */
  function FallbackKey(u: Unit, q: real, easyKey: string, hardKey: string): (k: string)
    ensures k == hardKey || k == easyKey
    ensures q <= 0.0 ==> k == easyKey
    ensures 1.0 <= q ==> k == hardKey
    ensures u < q ==> k == hardKey
    ensures q <= u && easyKey != hardKey ==> k != hardKey
  {
    if u < q then hardKey else easyKey
  }

  /** Whether draw u wins against probability p, clamped into [0, 1]. */
  function RewardWins(p: real, u: Unit): (w: bool)
    ensures w <==> u < Clamp01(p)
    ensures p <= 0.0 ==> !w
    ensures 1.0 <= p ==> w
    ensures u == p ==> !w
  {
    u < Clamp01(p)
  }

  /**
   * The body of prepare_block once its stream is seeded: combos * reps, then a sample of
   * the remainder without replacement, then an in-place shuffle when randomized.
   */
  method DrawBlock(rng: Rng, combos: seq<Combo>, n: nat, randomized: bool) returns (offers: seq<Combo>)
    requires combos != [] && 0 < n
    modifies rng
    ensures IsBlock(offers, combos, n, randomized)
    ensures rng.used == old(rng.used) + BlockDraws(n, |combos|, randomized)
  {
    var reps := n / |combos|;
    var rem := n % |combos|;
    offers := Repeat(combos, reps);
    var picked: seq<Combo> := [];
    if rem > 0 {
      if rem <= |combos| {
        picked := rng.Sample(combos, rem);
        offers := offers + picked;
      } else {
        // rem < |combos| always: the with-replacement branch cannot be taken.
        assert false;
      }
    }
    assert offers == Repeat(combos, reps) + picked;
    BlockOfParts(combos, n, picked);
    if randomized {
      var a := new Combo[|offers|](i requires 0 <= i < |offers| => offers[i]);
      assert a[..] == offers;
      rng.Shuffle(a);
      BlockReordered(offers, a[..], combos, n, randomized);
      offers := a[..];
    }
  }

  class Controller {
    const probabilityLevels: seq<real>
    const hardRewardLevels: seq<real>
    const randomizeOrder: bool
    const noChoiceHardProb: real
    const enableLogging: bool
    /** Which stream random.Random(seed) yields for each seed. */
    const gen: Generator

    var baseRng: Rng
    var lastBlockSeed: Option<int>
    var completedTrials: nat
    var history: seq<map<string, Value>>

    ghost predicate Valid()
      reads this
    {
      0.0 <= noChoiceHardProb <= 1.0 && completedTrials == |history|
    }

    /** The grid this controller draws its blocks from. */
    function Combos(): seq<Combo>
    {
      Product(probabilityLevels, hardRewardLevels)
    }

    /** The dataclass constructor and __post_init__: the hard-choice probability is clamped into [0, 1]. */
    constructor (probabilityLevels: seq<real>, hardRewardLevels: seq<real>, randomizeOrder: bool,
                 noChoiceHardProb: real, enableLogging: bool, gen: Generator)
      ensures Valid()
      ensures this.probabilityLevels == probabilityLevels && this.hardRewardLevels == hardRewardLevels
      ensures this.randomizeOrder == randomizeOrder && this.enableLogging == enableLogging && this.gen == gen
      ensures this.noChoiceHardProb == Clamp01(noChoiceHardProb)
      ensures fresh(baseRng) && baseRng.seed == 0 && baseRng.draws == gen(0) && baseRng.used == 0
      ensures lastBlockSeed == None && completedTrials == 0 && history == []
    {
      this.probabilityLevels := probabilityLevels;
      this.hardRewardLevels := hardRewardLevels;
      this.randomizeOrder := randomizeOrder;
      this.enableLogging := enableLogging;
      this.gen := gen;
      this.noChoiceHardProb := Clamp01(noChoiceHardProb);
      baseRng := new Rng(gen, 0);
      lastBlockSeed := None;
      completedTrials := 0;
      history := [];
    }

    /** from_dict: a controller from a configuration, or the error it raises. */
    static method FromDict(config: map<string, Value>, gen: Generator) returns (r: Result<Controller, ControllerError>)
      ensures r.Failure? <==> ConfigFrom(config).Failure?
      ensures r.Failure? ==> r.error == ConfigFrom(config).error
      ensures r.Success? ==>
        var c := ConfigFrom(config).value;
        && fresh(r.value) && r.value.Valid()
        && r.value.probabilityLevels == c.probabilityLevels
        && r.value.hardRewardLevels == c.hardRewardLevels
        && r.value.randomizeOrder == c.randomizeOrder
        && r.value.noChoiceHardProb == Clamp01(c.noChoiceHardProb)
        && r.value.enableLogging == c.enableLogging
        && r.value.gen == gen
        && fresh(r.value.baseRng) && r.value.baseRng.seed == 0 && r.value.baseRng.draws == gen(0)
        && r.value.baseRng.used == 0 && r.value.lastBlockSeed == None
        && r.value.completedTrials == 0 && r.value.history == []
    {
      var parsed := ConfigFrom(config);
      if parsed.Failure? {
        return Failure(parsed.error);
      }
      var c := parsed.value;
      var controller := new Controller(c.probabilityLevels, c.hardRewardLevels, c.randomizeOrder,
                                       c.noChoiceHardProb, c.enableLogging, gen);
      return Success(controller);
    }

    /**
     * prepare_block: no trials gives the empty block before anything else is looked at;
     * an empty grid raises; otherwise the block's stream is seeded afresh and the block
     * is the repeated grid plus a sampled remainder, shuffled when randomize_order is set.
     */
    method PrepareBlock(blockIdx: int, nTrials: int, seed: int) returns (r: Result<seq<Combo>, ControllerError>)
      requires Valid()
      modifies this
      ensures Valid()
      ensures completedTrials == old(completedTrials) && history == old(history)
      ensures nTrials <= 0 ==> r == Success([]) && baseRng == old(baseRng) && lastBlockSeed == old(lastBlockSeed)
      ensures 0 < nTrials && (probabilityLevels == [] || hardRewardLevels == []) ==>
        r == Failure(NoOfferCombinations) && baseRng == old(baseRng) && lastBlockSeed == old(lastBlockSeed)
      ensures 0 < nTrials && probabilityLevels != [] && hardRewardLevels != [] ==>
        && r.Success?
        && IsBlock(r.value, Combos(), nTrials, randomizeOrder)
        && fresh(baseRng) && baseRng.seed == seed && baseRng.draws == gen(seed)
        && baseRng.used == BlockDraws(nTrials, |Combos()|, randomizeOrder)
        && lastBlockSeed == Some(seed)
    {
      if nTrials <= 0 {
        return Success([]);
      }
      var combos := Product(probabilityLevels, hardRewardLevels);
      if combos == [] {
        return Failure(NoOfferCombinations);
      }
      var rng := new Rng(gen, seed);
      baseRng := rng;
      lastBlockSeed := Some(seed);

      var offers := DrawBlock(rng, combos, nTrials, randomizeOrder);
      return Success(offers);
    }

    /** fallback_choice: one draw from the block stream; the hard key when it is below no_choice_hard_prob. */
    method FallbackChoice(easyKey: string, hardKey: string) returns (key: string)
      requires Valid()
      modifies baseRng
      ensures Valid()
      ensures noChoiceHardProb == 0.0 ==> key == easyKey
      ensures key == FallbackKey(old(baseRng.NextUniform()), noChoiceHardProb, easyKey, hardKey)
      ensures baseRng.used == old(baseRng.used) + 1
    {
      var u := baseRng.Random();
      key := if u < noChoiceHardProb then hardKey else easyKey;
    }

    /** draw_reward: one draw from the block stream, a win when it is below the clamped probability. */
    method DrawReward(probability: real) returns (win: bool)
      requires Valid()
      modifies baseRng
      ensures Valid()
      ensures win == RewardWins(probability, old(baseRng.NextUniform()))
      ensures baseRng.used == old(baseRng.used) + 1
    {
      var p := Clamp01(probability);
      var u := baseRng.Random();
      win := u < p;
    }

    /** update: one more completed trial, and a copy of its summary appended to the history. */
    method Update(trialSummary: map<string, Value>)
      requires Valid()
      modifies this
      ensures Valid()
      ensures completedTrials == old(completedTrials) + 1
      ensures history == old(history) + [trialSummary]
      ensures baseRng == old(baseRng) && lastBlockSeed == old(lastBlockSeed)
    {
      completedTrials := completedTrials + 1;
      history := history + [trialSummary];
    }
  }
}
