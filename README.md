# RVEA optimizer in Dafny

This project models the orchestrator of Shark's RVEA (reference-vector-guided
evolutionary algorithm), `include/shark/Algorithms/DirectSearch/RVEA.h`. It
covers:

- the hyperparameters and their defaults;
- the two `init` overloads and `doInit`;
- `step`, `generateOffspring` and `updatePopulation`;
- the adaptation schedule `shouldAdaptReferenceVectors`.

The collaborators RVEA calls without owning their logic are passed in as the
function values of an `Operators` record (`base.dfy`):

- the lattice helpers;
- simulated binary crossover;
- polynomial mutation;
- the penalizing evaluator;
- reference-vector selection;
- reference-vector adaptation.

The shared random number generator is a class `Rng` (`random.dfy`). Its draws
promise only their ranges: `discrete` gives a value in `[lo, hi]`, and
`coinToss` never comes up for p <= 0 and always comes up for p >= 1.

Modules:

- `Base`: values (individuals, archive entries, boxes, the objective), errors,
  and the `Operators` record.
- `Random`: the generator.
- `Population`:
  - resizing the parent vector;
  - mirroring parents into the best-point archive;
  - the selected flag and its count;
  - `std::partition` as an in-place loop on an array;
  - truncation to `mu` survivors.
- `Variation`: what `generateOffspring` computes, as functions of the random
  draws it makes:
  - a binary tournament per slot;
  - a coin toss per pair, with a crossover when it comes up;
  - a mutation per slot.
- `Schedule`: the adaptation period `ceil(adaptationFrequency * maxIterations)`
  and how often a run adapts.
- `Optimizer`: the class `Rvea`, holding the source's fields. It also has a
  value `State` of all those fields, and predicates relating the state before
  and after `init` and one `updatePopulation`:
  - `InitWithRan` for `init(function, points)`;
  - `InitRan` for `doInit`;
  - `Updated` for one `updatePopulation`.

  Lemmas about runs of several generations are stated over sequences of
  `State`s.

Where the written code departs from its evident intent, the model follows the
code:

- **Constraint-handler check.** The check in `init(function, points)`
  (RVEA.h:184-202) runs only when the handler is missing or not a box handler.
  There it demands `hasConstraintHandler() && !isBoxConstrained()`. So an
  objective with no constraint handler is rejected. An objective with a
  non-box handler is accepted, with bounds of -1e20 and 1e20. The check's
  own message, "Algorithm does only allow box constraints" (RVEA.h:199-200),
  and the `CAN_SOLVE_CONSTRAINED` feature the constructor declares
  (RVEA.h:32) point to the opposite intent: unconstrained objectives pass,
  and only non-box handlers are refused. `Optimizer.BoundsFor` states the
  behaviour as written.
- **Failed size check.** The runtime checks of `init` (RVEA.h:158, 176,
  196) all fire before any field is written. `doInit`'s size check
  (RVEA.h:250), however, fires after the reference vectors, their minimum
  angles and `mu` are already overwritten. `Optimizer.InitRan` keeps that
  partial update.
- **Adaptation period.** `shouldAdaptReferenceVectors` casts
  `ceil(adaptationFrequency * maxIterations)` to `std::size_t`. The model
  computes the ceiling on exact reals (`Schedule.Ceil`).

## Model

| member | source | states |
|---|---|---|
| Optimizer.Rvea.constructor | include/shark/Algorithms/DirectSearch/RVEA.h:22-33 | approxMu and mu are 100; crossoverProbability 0.9; nc and nm 20; alpha 2; adaptationFrequency 0.1; maxIterations 0; the population, the archive, the reference vectors, their minimum angles and the initial vectors are empty (RVEA.h:367, 386-389); the optimizer keeps the generator and operators it was given. |
| Optimizer.Rvea.Init | include/shark/Algorithms/DirectSearch/RVEA.h:155-167 | An objective that cannot propose a starting point fails with NoStartingPoint, changing nothing. Otherwise the call behaves exactly as init(function, points) on the first mu proposals. |
| Optimizer.ProposeStartingPoints | include/shark/Algorithms/DirectSearch/RVEA.h:161-165 | Exactly n points, point i being the objective's i-th proposal. |
| Optimizer.Rvea.InitWith | include/shark/Algorithms/DirectSearch/RVEA.h:169-207 | An infeasible point fails with InfeasibleStartingPoint, changing nothing. The constraint-handler check then rejects a missing handler with OnlyBoxConstraints, changing nothing. Otherwise doInit runs on the points, their values, the handler's bounds and the current hyperparameters (InitWithRan). |
| Optimizer.EvaluateStartingPoints | include/shark/Algorithms/DirectSearch/RVEA.h:173-180 | Succeeds iff every point is feasible. The values are the objective's value at each point, in order. Otherwise the error is InfeasibleStartingPoint. |
| Optimizer.BoundsFor | include/shark/Algorithms/DirectSearch/RVEA.h:181-202 | Succeeds iff the objective has a constraint handler; otherwise the error is OnlyBoxConstraints. A box handler yields its own bounds. A non-box handler yields -1e20 and 1e20 in every one of the numberOfVariables coordinates. |
| Optimizer.Rvea.DoInit | include/shark/Algorithms/DirectSearch/RVEA.h:225-290 | InitRan. An empty point list fails, changing nothing. The lattice, its minimum angles and mu = its size are installed. A size different from suggestMu fails there. Otherwise: the hyperparameters are set, the counter is 0, mu parents are filled from the points, the archive mirrors them, the bounds are installed, and nothing else changes. |
| Optimizer.Rvea.FillParents | include/shark/Algorithms/DirectSearch/RVEA.h:258-281 | Exactly mu parents. Parent i is its resized slot with starting point sources[i] and that point's value as both fitnesses. When there are at most mu points, parents 0..k-1 take points 0..k-1 in order. |
| Optimizer.SuggestMu | include/shark/Algorithms/DirectSearch/RVEA.h:217-221 | With lattice helpers that agree with sumlength, suggestMu is the number of vectors unitVectorsOnLattice produces for the same ticks, so it is the mu doInit installs. |
| Optimizer.CoherentInitSucceeds | include/shark/Algorithms/DirectSearch/RVEA.h:238-259 | With lattice helpers that agree with sumlength, doInit on a non-empty list succeeds. It leaves mu == number of parents == suggestMu(objectives, approxMu), counter 0, the given hyperparameters, and the archive mirroring the parents. |
| Optimizer.CoherentInitWith | include/shark/Algorithms/DirectSearch/RVEA.h:169-290 | With coherent lattice helpers, init(function, points) succeeds iff the list is non-empty, every point is feasible and a constraint handler exists. On success every parent holds one of the starting points and its value as both fitnesses. |
| Population.Resize | include/shark/Algorithms/DirectSearch/RVEA.h:258-259 | Length n; the old slots are kept and the new ones take the filler. |
| Population.MirrorInto | include/shark/Algorithms/DirectSearch/RVEA.h:330-334 | The archive is exactly the parents' points and unpenalized fitnesses, in order (also the loop at 282-287). |
| Optimizer.Rvea.Step | include/shark/Algorithms/DirectSearch/RVEA.h:209-215 | With maxIterations == 0 the call fails with MaxIterationsNotSet and changes nothing, not even the generator. Otherwise the new state is one updatePopulation (Updated) applied to the evaluated offspring of the draws made, and the population stays in shape (Ready). No pair is crossed when the crossover probability is <= 0; every pair is crossed when it is >= 1. |
| Variation.Evaluated | include/shark/Algorithms/DirectSearch/RVEA.h:211-213 | The penalizing evaluator keeps every offspring's point, rank and flag, and sets its penalized and unpenalized fitness to the evaluator's two values for its point. |
| Optimizer.Rvea.GenerateOffspring | include/shark/Algorithms/DirectSearch/RVEA.h:292-314 | Fails before drawing when maxIterations == 0. Otherwise the draws fit mu offspring, and the offspring are the tournament, then crossover, then mutation function of those draws. No pair is crossed when the probability is <= 0; every pair is crossed when it is >= 1. |
| Optimizer.Rvea.SelectMatingPool | include/shark/Algorithms/DirectSearch/RVEA.h:296-300 | 2 mu contestant indices, all valid. Slot i holds the winner of contestants 2i and 2i+1. |
| Variation.Winner | include/shark/Algorithms/DirectSearch/RVEA.h:296 | The winner is one of the two contestants, and neither contestant has a lower rank. The second contestant wins only with a strictly lower rank. |
| Variation.Tournament | include/shark/Algorithms/DirectSearch/RVEA.h:296-300 | The mating pool has n slots, each holding a member of the parent population. |
| Optimizer.Rvea.CrossoverPairs | include/shark/Algorithms/DirectSearch/RVEA.h:302-308 | One toss per pair (i, i+1) with i even and i+1 < mu. A crossover seed is drawn only for a pair whose toss came up; 0 is recorded for a pair left alone. The result is the pairwise crossover function of those draws. The tosses obey the probability bounds. |
| Variation.CrossedKeepsRest | include/shark/Algorithms/DirectSearch/RVEA.h:302-308 | Crossover changes only search points. The odd last slot of an odd-sized pool is never touched. With every toss false the pool is unchanged. |
| Optimizer.Rvea.MutateAll | include/shark/Algorithms/DirectSearch/RVEA.h:309-312 | One seed per slot. Every slot's point, and nothing else, is replaced by its mutant. |
| Variation.OffspringFromParents | include/shark/Algorithms/DirectSearch/RVEA.h:292-314 | Every offspring is some parent (its fitness, rank and flag) with a new search point. With no crossover, offspring i is tournament winner i with its point mutated. |
| Variation.PairGuardsAgree | include/shark/Algorithms/DirectSearch/RVEA.h:302 | For mu >= 1, the written guard `i < mu - 1` on size_t admits exactly the i with i + 1 < mu. |
| Variation.EmptyPopulationWraps | include/shark/Algorithms/DirectSearch/RVEA.h:302 | For mu == 0, the written bound wraps to 2^64 - 1 and admits i = 0, although offspring[0] and offspring[1] do not exist. |
| Population.Mark | include/shark/Algorithms/DirectSearch/RVEA.h:320-323 | Selection changes only the selected flags of the pool: individual i is selected iff selection chose index i. |
| Optimizer.Rvea.UpdatePopulation | include/shark/Algorithms/DirectSearch/RVEA.h:316-365 | Updated (one step is spelled out after this table). The population stays in shape (Ready). |
| Population.Partition | include/shark/Algorithms/DirectSearch/RVEA.h:325-327 | The array is a permutation of its old contents, with all selected individuals before all unselected ones. The returned point divides them. |
| Population.PartitionTruncate | include/shark/Algorithms/DirectSearch/RVEA.h:325-328 | Survivors (the property is spelled out after this table). |
| Population.TruncationFacts | include/shark/Algorithms/DirectSearch/RVEA.h:328 | On a pool grouped at k: the selected count is k, and the first mu are a sub-multiset. When k <= mu every copy of every selected individual is kept. When k >= mu every kept individual is selected. |
| Population.SelectedCountPermutation | include/shark/Algorithms/DirectSearch/RVEA.h:325-327 | Reordering the pool does not change how many individuals are selected. |
| Schedule.Ceil | include/shark/Algorithms/DirectSearch/RVEA.h:373 | The ceiling c of x: c - 1 < x <= c. |
| Schedule.AdaptationPeriod | include/shark/Algorithms/DirectSearch/RVEA.h:372-374 | The period is the ceiling of adaptationFrequency * maxIterations. |
| Schedule.ShouldAdapt | include/shark/Algorithms/DirectSearch/RVEA.h:370-375 | Within the first period, adaptation is due at counter 0 and at no other counter (ShouldAdaptPeriodic states that the pattern repeats with the period). |
| Schedule.ShouldAdaptPeriodic | include/shark/Algorithms/DirectSearch/RVEA.h:370-375 | Adaptation is due at counter 0. Whether it is due repeats with the period. |
| Schedule.AdaptationsCount | include/shark/Algorithms/DirectSearch/RVEA.h:370-375 | Among counters 0 .. n-1, adaptation is due ceil(n / period) times. |
| Optimizer.RunInvariants | include/shark/Algorithms/DirectSearch/RVEA.h:316-365 | Along any run of updatePopulation: after k generations the counter has grown by k; hyperparameters, mu and the initial lattice never change; the population stays in shape. |
| Optimizer.RunAdaptations | include/shark/Algorithms/DirectSearch/RVEA.h:357-375 | A run of n >= 1 generations from counter 0 adapts the reference vectors exactly ceil(n / period) times. |
| Optimizer.DefaultSchedule | include/shark/Algorithms/DirectSearch/RVEA.h:30 | With the default adaptationFrequency 0.1 and maxIterations 200, the period is 20, and a 200-generation run adapts 10 times. |
| Random.Rng.Discrete | include/shark/Algorithms/DirectSearch/RVEA.h:276-277 | discrete(rng, lo, hi) returns a value in [lo, hi]. |
| Random.Rng.CoinToss | include/shark/Algorithms/DirectSearch/RVEA.h:304 | coinToss(rng, p) is never true for p <= 0 and always true for p >= 1. |

**Updated.** One `updatePopulation` step, as stated for
Optimizer.Rvea.UpdatePopulation:

1. Selection marks the pool of parents and offspring, using counter + 1.
2. The new parents are Survivors of the marked pool.
3. The archive mirrors the new parents.
4. The reference vectors and angles are adapted exactly when the old counter
   is a multiple of the period. Otherwise they are unchanged.
5. The counter grows by 1.
6. Nothing else changes.

**Survivors.** The property stated for Population.PartitionTruncate:

- Exactly mu individuals are kept.
- They form a sub-multiset of the pool.
- Selected individuals come before unselected ones.
- If at most mu were selected, every copy of every selected individual
  survives.
- If at least mu were selected, only selected individuals survive.

## Left out

- Serialization (the `serialize(Archive&)` template, RVEA.h:135-153) and the disabled debug file
  dump (RVEA.h:336-356): this is I/O, with no effect on the algorithm.
- `checkFeatures` (RVEA.h:157, 172): the base class's feature check is not
  part of this model.
- The hyperparameter accessors: modelled as the class's public fields. `name()`
  is the constant `Optimizer.Name`.
- `mu` and `curIteration` are writable fields of the model's class, but the
  source gives callers no way to write them (the `mu()` setter is commented
  out at RVEA.h:95-98, and the counter has no accessor). The model does not
  enforce that restriction.
- The internals of the operators RVEA calls:
  - simulated binary crossover;
  - polynomial mutation;
  - the penalizing evaluator;
  - reference-vector-guided selection;
  - reference-vector adaptation;
  - `computeOptimalLatticeTicks`, `sumlength`, `unitVectorsOnLattice`,
    `updateAngles`.

  Their source is not part of this model. They are function values, and
  `Base.LatticeCoherent` names the one assumption the init lemmas need.
- Optimizer.Rvea.SelectMatingPool: `TournamentSelection<RankOrdering>` is not
  part of this model. It is modelled as binary tournaments over two uniform
  draws, the lower rank winning (`Variation.Winner`).
- Random draws inside crossover and mutation: each application consumes one
  seed from the generator. The order of the per-variable draws within an
  operator is not modelled.
- Random.Rng: the generator's distribution is not modelled. Its draws promise
  only their ranges.
- The bounds are held once by the optimizer and passed to crossover and
  mutation. The source stores them in each operator through
  `m_crossover.init` and `m_mutation.init`.
- Schedule.Ceil: computes on exact reals. Floating-point rounding of
  `adaptationFrequency * maxIterations`, and the cast to `std::size_t` of a
  negative ceiling, are not modelled.
- Optimizer.Rvea.Step: requires, when maxIterations > 0, a population in shape
  (an archive of mu entries, parents when mu > 0) and a positive adaptation
  period. The source has undefined behaviour with too short an archive, with
  no parents, and with a period of 0 (`%` by zero). An archive longer than mu
  is well defined in the source (the entries past mu are kept), but the model
  excludes it too; it arises only after a failed lattice-size check.
- Optimizer.Rvea.UpdatePopulation: requires at least mu individuals in the
  merged pool and an archive of exactly mu entries. Fewer of either is
  undefined behaviour in the source (the erase at RVEA.h:328 and the archive
  loop at RVEA.h:330-334). More archive entries than mu is excluded as for
  Step.
- Optimizer.Rvea.constructor: promises nothing about the generation counter,
  which the source's constructor leaves uninitialised.
- Optimizer.Rvea.Init: `propose(k)` stands for the k-th call of
  `proposeStartingPoint`. The objective's own state between calls is not
  modelled.
- `SHARK_RUNTIME_CHECK` and `SIZE_CHECK` are modelled as error results, with
  `SIZE_CHECK` always enabled.
- Integer widths: `std::size_t` wrap-around is modelled only in the crossover
  loop bound (`Variation.PairBoundAsWritten`). Elsewhere the counts are
  unbounded naturals.

## Findings

| source | as written | input that shows it | evidently intended | confidence | as-written member | corrected member |
|---|---|---|---|---|---|---|
| include/shark/Algorithms/DirectSearch/RVEA.h:302 | `for (i = 0; i < mu() - 1; i += 2)` on `std::size_t` | mu == 0 (an empty lattice): `mu() - 1` wraps to 2^64 - 1, so the loop accesses `offspring[0]` and `offspring[1]` of an empty vector | loop while `i + 1 < mu()`, crossing nothing when mu < 2 | low (needs a lattice with no vectors), not executed | Variation.EmptyPopulationWraps | Variation.PairGuardsAgree |

The model's crossover loop, Optimizer.Rvea.CrossoverPairs, uses the corrected
guard `i + 1 < |pool|`. Variation.PairGuardsAgree shows that this guard agrees
with the written one whenever mu >= 1.
