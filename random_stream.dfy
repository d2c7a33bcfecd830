/**
 * A seeded random generator as an explicit stream of draws. Python's Mersenne Twister
 * is not modelled: a Generator gives, for every seed, the uniform and standard-normal
 * values at each position of the stream, and an Rng object walks that stream. Every
 * draw (random(), normal(), one index for sample or shuffle) consumes one position,
 * so the order of draws is explicit.
 */
module RandomStream {

  /** What random() returns: a real in [0, 1). */
  type Unit = r: real | 0.0 <= r < 1.0

  /** The values one seeded stream yields, position by position. */
  datatype Draws = Draws(uniform: nat -> Unit, normal: nat -> real)

  /** The stream each seed selects. */
  type Generator = int -> Draws

  /** A normal value with the given mean and standard deviation, from a standard-normal z. */
  function Gauss(mean: real, sd: real, z: real): real
  {
    mean + sd * z
  }

  /** The index randbelow(n) derives from a uniform draw u. */
  function ScaledIndex(u: Unit, n: nat): (j: nat)
    requires 0 < n
    ensures j < n
  {
    ScaleBelow(u, n);
    (u * n as real).Floor
  }

  lemma ScaleBelow(u: Unit, n: nat)
    requires 0 < n
    ensures 0.0 <= u * n as real < n as real
  {
  }

  class Rng {
    const seed: int
    const draws: Draws
    var used: nat

    /** random.Random(seed): a fresh stream, nothing drawn yet. */
    constructor (gen: Generator, seed: int)
      ensures this.seed == seed && draws == gen(seed) && used == 0
    {
      this.seed := seed;
      draws := gen(seed);
      used := 0;
    }

    /** The uniform value the next random() will return. */
    function NextUniform(): Unit
      reads this
    {
      draws.uniform(used)
    }

    method Random() returns (u: Unit)
      modifies this
      ensures u == draws.uniform(old(used)) && used == old(used) + 1
    {
      u := draws.uniform(used);
      used := used + 1;
    }

    /** A normal draw: mean plus sd times the stream's standard-normal value. */
    method Normal(mean: real, sd: real) returns (x: real)
      modifies this
      ensures x == Gauss(mean, sd, draws.normal(old(used))) && used == old(used) + 1
    {
      x := Gauss(mean, sd, draws.normal(used));
      used := used + 1;
    }

    /** An index below n, from one draw. */
    method RandBelow(n: nat) returns (j: nat)
      requires 0 < n
      modifies this
      ensures j < n && j == ScaledIndex(draws.uniform(old(used)), n)
      ensures used == old(used) + 1
    {
      var u := Random();
      j := ScaledIndex(u, n);
    }

    /**
     * sample(population, k): k elements drawn without replacement, one draw per element
     * (pick a position of the pool, then move the pool's last live element into it).
     * Python's own sample may switch to a set method and redraw on repeats, and its
     * randbelow may reject and redraw; this stream takes exactly one draw per index.
     */
    method Sample<T>(population: seq<T>, k: nat) returns (result: seq<T>)
      requires k <= |population|
      modifies this
      ensures |result| == k
      ensures multiset(result) <= multiset(population)
      ensures used == old(used) + k
    {
      var live := population;
      result := [];
      var i := 0;
      while i < k
        invariant 0 <= i <= k && |live| == |population| - i && |result| == i
        invariant multiset(result) + multiset(live) == multiset(population)
        invariant used == old(used) + i
      {
        var j := RandBelow(|live|);
        SampleStep(result, live, j);
        result := result + [live[j]];
        live := live[j := live[|live| - 1]][..|live| - 1];
        i := i + 1;
      }
    }

    /** shuffle(a): for i from the last position down to 1, swap a[i] with a[randbelow(i + 1)]. */
    method Shuffle<T>(a: array<T>)
      modifies this, a
      ensures multiset(a[..]) == old(multiset(a[..]))
      ensures used == old(used) + (if a.Length == 0 then 0 else a.Length - 1)
    {
      var i := a.Length;
      while i > 1
        invariant (if a.Length == 0 then 0 else 1) <= i <= a.Length
        invariant multiset(a[..]) == old(multiset(a[..]))
        invariant used == old(used) + (a.Length - i)
      {
        var j := RandBelow(i);
        ghost var before := a[..];
        a[i - 1], a[j] := a[j], a[i - 1];
        SwapKeepsMultiset(before, i - 1, j);
        assert a[..] == before[i - 1 := before[j]][j := before[i - 1]];
        i := i - 1;
      }
    }
  }

  /** Swapping two positions keeps the elements. */
  lemma SwapKeepsMultiset<T>(s: seq<T>, i: nat, j: nat)
    requires i < |s| && j < |s|
    ensures multiset(s[i := s[j]][j := s[i]]) == multiset(s)
  {
  }

  /** Moving live[j] to the result, and the last live element into its place, keeps the elements together. */
  lemma SampleStep<T>(result: seq<T>, live: seq<T>, j: nat)
    requires j < |live|
    ensures multiset(result + [live[j]]) + multiset(live[j := live[|live| - 1]][..|live| - 1])
      == multiset(result) + multiset(live)
  {
    PoolTake(live, |live|, j);
    assert live[..|live|] == live;
    assert multiset(result + [live[j]]) == multiset(result) + multiset{live[j]};
  }

  /** Taking pool[j] out of the live prefix pool[..m] by moving pool[m - 1] into its place. */
  lemma PoolTake<T>(pool: seq<T>, m: nat, j: nat)
    requires j < m <= |pool|
    ensures multiset(pool[j := pool[m - 1]][..m - 1]) + multiset{pool[j]} == multiset(pool[..m])
  {
    var p := pool[j := pool[m - 1]];
    assert pool[..m] == pool[..m - 1] + [pool[m - 1]];
    if j < m - 1 {
      assert p[..m - 1] == pool[..m - 1][j := pool[m - 1]];
    } else {
      assert p[..m - 1] == pool[..m - 1];
    }
  }
}
