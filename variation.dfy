/*
 * What one call of generateOffspring computes, as functions of the random
 * draws it makes: a binary tournament fills mu slots, crossover may touch each
 * adjacent pair (i, i+1) with i even, and every slot is mutated once.
 */
module Variation {
  import opened Base

  /**
   * The random numbers one generateOffspring call consumes, phase by phase:
   * two tournament contestants per slot, one coin toss and one crossover seed
   * per pair, one mutation seed per slot.
   */
  datatype Draws = Draws(
    picks: seq<nat>,
    tosses: seq<bool>,
    crossSeeds: seq<nat>,
    mutationSeeds: seq<nat>)

  /** Draws that fit n offspring bred from a population of `parentCount`. */
  predicate DrawsFit(d: Draws, parentCount: nat, n: nat)
  {
    |d.picks| == 2 * n &&
    (forall k :: 0 <= k < |d.picks| ==> d.picks[k] < parentCount) &&
    |d.tosses| == n / 2 && |d.crossSeeds| == n / 2 &&
    |d.mutationSeeds| == n
  }

  /**
   * One binary tournament under the rank ordering: the second contestant
   * replaces the first only if its rank is strictly lower.
   */
  function Winner(parents: seq<Individual>, a: nat, b: nat): (w: Individual)
    requires a < |parents| && b < |parents|
    ensures w == parents[a] || w == parents[b]
    ensures w.rank <= parents[a].rank && w.rank <= parents[b].rank
    ensures w == parents[b] && parents[a] != parents[b] ==> parents[b].rank < parents[a].rank
  {
    if parents[b].rank < parents[a].rank then parents[b] else parents[a]
  }

  /** The mating pool: slot i holds the winner of contestants picks[2i], picks[2i+1]. */
  function Tournament(parents: seq<Individual>, picks: seq<nat>, n: nat): (pool: seq<Individual>)
    requires |picks| == 2 * n
    requires forall k :: 0 <= k < |picks| ==> picks[k] < |parents|
    ensures |pool| == n
    ensures forall i :: 0 <= i < n ==> pool[i] in parents
  {
    seq(n, i requires 0 <= i < n => Winner(parents, picks[2 * i], picks[2 * i + 1]))
  }

  /** One step of the crossover loop: the pair is crossed only if its coin toss came up. */
  function CrossPair(cross: CrossoverOp, nc: real, box: Box, a: Individual, b: Individual,
                     toss: bool, seed: nat): (Individual, Individual)
  {
    if toss then
      var children := cross(nc, box, seed, a.point, b.point);
      (a.(point := children.0), b.(point := children.1))
    else (a, b)
  }

  /**
   * The pool after the crossover loop, pair by pair from the front: pair k,
   * slots (2k, 2k+1), goes through CrossPair with toss k and seed k; an odd
   * last slot is never crossed.
   */
  function Crossed(cross: CrossoverOp, nc: real, box: Box, pool: seq<Individual>,
                   tosses: seq<bool>, seeds: seq<nat>): (r: seq<Individual>)
    requires |tosses| == |pool| / 2 && |seeds| == |pool| / 2
    ensures |r| == |pool|
    decreases |pool|
  {
    if |pool| < 2 then pool
    else
      var pair := CrossPair(cross, nc, box, pool[0], pool[1], tosses[0], seeds[0]);
      [pair.0, pair.1] + Crossed(cross, nc, box, pool[2..], tosses[1..], seeds[1..])
  }

  /**
   * Crossover changes search points only; an odd last slot is untouched; with
   * every toss false nothing changes at all.
   */
  lemma {:induction false} CrossedKeepsRest(cross: CrossoverOp, nc: real, box: Box, pool: seq<Individual>,
                                            tosses: seq<bool>, seeds: seq<nat>)
    requires |tosses| == |pool| / 2 && |seeds| == |pool| / 2
    ensures var r := Crossed(cross, nc, box, pool, tosses, seeds);
      forall i :: 0 <= i < |r| ==> r[i] == pool[i].(point := r[i].point)
    ensures |pool| % 2 == 1 ==>
      Crossed(cross, nc, box, pool, tosses, seeds)[|pool| - 1] == pool[|pool| - 1]
    ensures (forall k :: 0 <= k < |tosses| ==> !tosses[k]) ==>
      Crossed(cross, nc, box, pool, tosses, seeds) == pool
    decreases |pool|
  {
    if |pool| >= 2 {
      var r := Crossed(cross, nc, box, pool, tosses, seeds);
      var rest := Crossed(cross, nc, box, pool[2..], tosses[1..], seeds[1..]);
      CrossedKeepsRest(cross, nc, box, pool[2..], tosses[1..], seeds[1..]);
      assert r == [r[0], r[1]] + rest;
      forall i | 2 <= i < |r|
        ensures r[i] == pool[i].(point := r[i].point)
      {
        assert r[i] == rest[i - 2] && pool[i] == pool[2..][i - 2];
      }
      if forall k :: 0 <= k < |tosses| ==> !tosses[k] {
        assert !tosses[0];
        assert forall k :: 0 <= k < |tosses[1..]| ==> !tosses[1..][k] by {
          forall k | 0 <= k < |tosses[1..]| ensures !tosses[1..][k] {
            assert tosses[1..][k] == tosses[k + 1];
          }
        }
        assert pool == [pool[0], pool[1]] + pool[2..];
      }
      if |pool| % 2 == 1 {
        assert r[|pool| - 1] == rest[|pool| - 3];
      }
    }
  }

  /**
   * Crossing a pool with an even-length prefix crosses the prefix with the
   * first tosses and the rest with the remaining ones.
   */
  lemma {:induction false} CrossedAppend(cross: CrossoverOp, nc: real, box: Box,
                                         front: seq<Individual>, back: seq<Individual>,
                                         tosses: seq<bool>, seeds: seq<nat>)
    requires |front| % 2 == 0
    requires |tosses| == (|front| + |back|) / 2 && |seeds| == (|front| + |back|) / 2
    ensures Crossed(cross, nc, box, front + back, tosses, seeds) ==
      Crossed(cross, nc, box, front, tosses[..|front| / 2], seeds[..|front| / 2]) +
      Crossed(cross, nc, box, back, tosses[|front| / 2..], seeds[|front| / 2..])
    decreases |front|
  {
    if |front| == 0 {
      assert front + back == back;
      assert tosses[0..] == tosses && seeds[0..] == seeds;
    } else {
      var pool := front + back;
      assert pool[2..] == front[2..] + back;
      assert pool[0] == front[0] && pool[1] == front[1];
      CrossedAppend(cross, nc, box, front[2..], back, tosses[1..], seeds[1..]);
      var h := |front| / 2;
      assert tosses[1..][..h - 1] == tosses[..h][1..];
      assert seeds[1..][..h - 1] == seeds[..h][1..];
      assert tosses[1..][h - 1..] == tosses[h..];
      assert seeds[1..][h - 1..] == seeds[h..];
    }
  }

  /**
   * One step of the crossover loop: if slots before i are crossed and the rest
   * untouched, putting pair (i, i+1) through CrossPair gives the pool with
   * slots before i+2 crossed.
   */
  lemma CrossedStep(cross: CrossoverOp, nc: real, box: Box, pool: seq<Individual>, i: nat,
                    tosses: seq<bool>, seeds: seq<nat>, toss: bool, seed: nat, crossed: seq<Individual>)
    requires i + 1 < |pool| && i == 2 * |tosses| && |seeds| == |tosses|
    requires crossed == Crossed(cross, nc, box, pool[..i], tosses, seeds) + pool[i..]
    ensures var pair := CrossPair(cross, nc, box, crossed[i], crossed[i + 1], toss, seed);
      crossed[i := pair.0][i + 1 := pair.1] ==
      Crossed(cross, nc, box, pool[..i + 2], tosses + [toss], seeds + [seed]) + pool[i + 2..]
  {
    var last := [pool[i], pool[i + 1]];
    assert pool[..i + 2] == pool[..i] + last;
    CrossedAppend(cross, nc, box, pool[..i], last, tosses + [toss], seeds + [seed]);
    assert (tosses + [toss])[..i / 2] == tosses && (seeds + [seed])[..i / 2] == seeds;
    assert (tosses + [toss])[i / 2..] == [toss] && (seeds + [seed])[i / 2..] == [seed];
    assert last[2..] == [];
    var front := Crossed(cross, nc, box, pool[..i], tosses, seeds);
    var pair := CrossPair(cross, nc, box, pool[i], pool[i + 1], toss, seed);
    assert Crossed(cross, nc, box, pool[..i + 2], tosses + [toss], seeds + [seed]) == front + [pair.0, pair.1];
    assert crossed[i] == pool[i] && crossed[i + 1] == pool[i + 1];
    var updated := crossed[i := pair.0][i + 1 := pair.1];
    var target := front + [pair.0, pair.1] + pool[i + 2..];
    assert |updated| == |target|;
    forall k | 0 <= k < |updated|
      ensures updated[k] == target[k]
    {
      if k >= i + 2 {
        assert updated[k] == crossed[k] == pool[i..][k - i] == pool[k];
      }
    }
  }

  /** When the crossover loop stops, the whole pool is crossed. */
  lemma CrossedDone(cross: CrossoverOp, nc: real, box: Box, pool: seq<Individual>, i: nat,
                    tosses: seq<bool>, seeds: seq<nat>, crossed: seq<Individual>)
    requires i <= |pool| && i + 1 >= |pool| && i == 2 * |tosses| && |seeds| == |tosses|
    requires crossed == Crossed(cross, nc, box, pool[..i], tosses, seeds) + pool[i..]
    ensures |tosses| == |pool| / 2
    ensures crossed == Crossed(cross, nc, box, pool, tosses, seeds)
  {
    assert pool == pool[..i] + pool[i..];
    CrossedAppend(cross, nc, box, pool[..i], pool[i..], tosses, seeds);
    assert tosses[..i / 2] == tosses && seeds[..i / 2] == seeds;
    assert tosses[i / 2..] == [] && seeds[i / 2..] == [];
  }

  /** The pool after the mutation loop: each slot's point mutated with its own seed. */
  function Mutated(mutate: MutationOp, nm: real, box: Box, pool: seq<Individual>,
                   seeds: seq<nat>): seq<Individual>
    requires |seeds| == |pool|
  {
    seq(|pool|, i requires 0 <= i < |pool| =>
      pool[i].(point := mutate(nm, box, seeds[i], pool[i].point)))
  }

  /** The offspring of one generation: tournament, then crossover, then mutation. */
  function Offspring(ops: Operators, nc: real, nm: real, box: Box, parents: seq<Individual>,
                     n: nat, d: Draws): (r: seq<Individual>)
    requires DrawsFit(d, |parents|, n)
    ensures |r| == n
  {
    var pool := Tournament(parents, d.picks, n);
    var crossed := Crossed(ops.crossover, nc, box, pool, d.tosses, d.crossSeeds);
    Mutated(ops.mutation, nm, box, crossed, d.mutationSeeds)
  }

  /**
   * Each offspring is a copy of a parent (its fitness, rank and selection
   * flag) with a new search point; with every coin toss false, offspring i
   * is the tournament winner i with its point mutated.
   */
  lemma OffspringFromParents(ops: Operators, nc: real, nm: real, box: Box, parents: seq<Individual>,
                             n: nat, d: Draws)
    requires DrawsFit(d, |parents|, n)
    ensures var r := Offspring(ops, nc, nm, box, parents, n, d);
      forall i :: 0 <= i < n ==> exists j :: 0 <= j < |parents| && r[i] == parents[j].(point := r[i].point)
    ensures (forall k :: 0 <= k < |d.tosses| ==> !d.tosses[k]) ==>
      var pool := Tournament(parents, d.picks, n);
      Offspring(ops, nc, nm, box, parents, n, d) == Mutated(ops.mutation, nm, box, pool, d.mutationSeeds)
  {
    var pool := Tournament(parents, d.picks, n);
    var crossed := Crossed(ops.crossover, nc, box, pool, d.tosses, d.crossSeeds);
    var r := Offspring(ops, nc, nm, box, parents, n, d);
    CrossedKeepsRest(ops.crossover, nc, box, pool, d.tosses, d.crossSeeds);
    forall i | 0 <= i < n
      ensures exists j :: 0 <= j < |parents| && r[i] == parents[j].(point := r[i].point)
    {
      var j := d.picks[2 * i];
      var k := d.picks[2 * i + 1];
      assert r[i] == crossed[i].(point := r[i].point);
      assert crossed[i] == pool[i].(point := crossed[i].point);
      if pool[i] == parents[j] {
        assert r[i] == parents[j].(point := r[i].point);
      } else {
        assert r[i] == parents[k].(point := r[i].point);
      }
    }
  }

  /** The offspring after the penalizing evaluator filled in both objective vectors. */
  function Evaluated(ops: Operators, f: Objective, offspring: seq<Individual>): (r: seq<Individual>)
    ensures |r| == |offspring|
    ensures forall i :: 0 <= i < |r| ==>
      r[i] == offspring[i].(penalizedFitness := r[i].penalizedFitness, unpenalizedFitness := r[i].unpenalizedFitness) &&
      (r[i].penalizedFitness, r[i].unpenalizedFitness) == ops.evaluate(f, offspring[i].point)
  {
    seq(|offspring|, i requires 0 <= i < |offspring| =>
      var values := ops.evaluate(f, offspring[i].point);
      offspring[i].(penalizedFitness := values.0, unpenalizedFitness := values.1))
  }

  const SizeTModulus: nat := 0x1_0000_0000_0000_0000

  /** The bound `mu() - 1` of the crossover loop, computed on std::size_t. */
  function PairBoundAsWritten(mu: nat): nat
    requires mu < SizeTModulus
  {
    (mu + SizeTModulus - 1) % SizeTModulus
  }

  /**
   * With mu == 0 the bound wraps to 2^64 - 1: the guard admits i = 0 although
   * neither offspring[0] nor offspring[1] exists in the empty vector.
   */
  lemma EmptyPopulationWraps(mu: nat, i: nat)
    requires mu == 0 && i == 0
    ensures PairBoundAsWritten(mu) == SizeTModulus - 1
    ensures i < PairBoundAsWritten(mu) && !(i < mu) && !(i + 1 < mu)
  {
  }

  /** For mu >= 1 the written guard `i < mu - 1` is the guard `i + 1 < mu` the model uses. */
  lemma PairGuardsAgree(mu: nat, i: nat)
    requires 1 <= mu < SizeTModulus
    ensures (i < PairBoundAsWritten(mu)) == (i + 1 < mu)
  {
  }
}
