/*
 * The RVEA optimizer: its hyperparameters, parent population, best-point
 * archive, reference vectors and generation counter, the two init overloads,
 * doInit, step, generateOffspring and updatePopulation.
 *
 * Besides the class, the optimizer's whole state is also given as a value
 * (State), and what init and one population update do is stated as
 * predicates relating the state before and after, so that runs of several
 * generations can be reasoned about with lemmas.
 */
module Optimizer {
  import opened Base
  import opened Random
  import opened Population
  import opened Variation
  import opened Schedule

  const Name := "RVEA"

  /** The magnitude of the default bounds, 1e20. */
  const Unbounded: real := 100000000000000000000.0

  /** The hyperparameters doInit installs. */
  datatype Settings = Settings(
    nm: real,
    nc: real,
    crossoverProbability: real,
    alpha: real,
    adaptationFrequency: real,
    maxIterations: nat)

  /** Every field of the optimizer as a value. */
  datatype State = State(
    settings: Settings,
    approxMu: nat,
    mu: nat,
    parents: seq<Individual>,
    best: seq<BestPoint>,
    curIteration: nat,
    referenceVectors: seq<Vector>,
    minAngles: seq<real>,
    initialVectors: seq<Vector>,
    bounds: Box)

  /**
   * suggestMu: the lattice cardinality for the ticks that best approximate
   * approxMu; with coherent lattice helpers, the number of vectors doInit installs.
   */
  function SuggestMu(ops: Operators, objectives: nat, approxMu: nat): (m: nat)
    ensures LatticeCoherent(ops) ==> m == |ops.unitVectors(objectives, ops.ticks(objectives, approxMu))|
  {
    ops.sumLength(objectives, ops.ticks(objectives, approxMu))
  }

  function Constant(n: nat, x: real): seq<real>
  {
    seq(n, _ => x)
  }

  /**
   * The bounds init(function, points) hands to the operators. The check
   * reads `hasConstraintHandler() && !isBoxConstrained()` in the branch where
   * the handler is not a box handler, so an objective without a handler is
   * rejected and a non-box handler is accepted with bounds of +-1e20.
   */
  function BoundsFor(f: Objective): (r: Result<Box>)
    ensures r.Success? <==> f.handler.Some?
    ensures r.Failure? ==> r.error == OnlyBoxConstraints
    ensures f.handler.Some? && f.handler.value.BoxHandler? ==>
      r.value == Box(f.handler.value.lower, f.handler.value.upper)
    ensures f.handler == Some(OtherHandler) ==>
      |r.value.lower| == |r.value.upper| == f.numberOfVariables &&
      (forall i :: 0 <= i < f.numberOfVariables ==>
        r.value.lower[i] == -Unbounded && r.value.upper[i] == Unbounded)
  {
    var defaults := Box(Constant(f.numberOfVariables, -Unbounded), Constant(f.numberOfVariables, Unbounded));
    if f.handler.Some? && f.handler.value.BoxHandler? then
      Success(Box(f.handler.value.lower, f.handler.value.upper))
    else if f.handler.Some? && !f.handler.value.BoxHandler? then
      Success(defaults)
    else
      Failure(OnlyBoxConstraints)
  }

  /** The objective vector of every starting point. */
  function Evaluations(f: Objective, points: seq<Point>): seq<Fitness>
  {
    seq(|points|, i requires 0 <= i < |points| => f.eval(points[i]))
  }

  /** The first n points the objective proposes. */
  function Proposals(f: Objective, n: nat): seq<Point>
  {
    seq(n, i requires 0 <= i < n => f.propose(i))
  }

  /**
   * The loop of init(function, points) that checks each starting point for
   * feasibility and evaluates it; it stops at the first infeasible point.
   */
  method EvaluateStartingPoints(f: Objective, points: seq<Point>) returns (r: Result<seq<Fitness>>)
    ensures r.Success? <==> forall i :: 0 <= i < |points| ==> f.isFeasible(points[i])
    ensures r.Success? ==> r.value == Evaluations(f, points)
    ensures r.Failure? ==> r.error == InfeasibleStartingPoint
  {
    var values: seq<Fitness> := [];
    var i := 0;
    while i < |points|
      invariant 0 <= i <= |points|
      invariant |values| == i
      invariant forall j :: 0 <= j < i ==> f.isFeasible(points[j]) && values[j] == f.eval(points[j])
    {
      if !f.isFeasible(points[i]) {
        return Failure(InfeasibleStartingPoint);
      }
      values := values + [f.eval(points[i])];
      i := i + 1;
    }
    return Success(values);
  }

  /** The loop of init(function) that asks the objective for n starting points. */
  method ProposeStartingPoints(f: Objective, n: nat) returns (points: seq<Point>)
    ensures |points| == n
    ensures forall i :: 0 <= i < n ==> points[i] == f.propose(i)
  {
    points := [];
    var i := 0;
    while i < n
      invariant 0 <= i <= n
      invariant |points| == i
      invariant forall j :: 0 <= j < i ==> points[j] == f.propose(j)
    {
      points := points + [f.propose(i)];
      i := i + 1;
    }
  }

  /** Between generations: mu parents, mu archive entries, the archive mirroring the parents. */
  ghost predicate Ready(s: State)
  {
    |s.parents| == s.mu && |s.best| == s.mu && s.best == Mirror(s.parents)
  }

  /** Slot i of the parent vector after resize: the old individual, or a default one. */
  function Slot(previous: seq<Individual>, i: nat): Individual
  {
    if i < |previous| then previous[i] else DefaultIndividual
  }

  /** A slot filled from starting point k: its point, and its value as both fitnesses. */
  function Filled(slot: Individual, points: seq<Point>, values: seq<Fitness>, k: nat): Individual
    requires k < |points| == |values|
  {
    slot.(point := points[k], penalizedFitness := values[k], unpenalizedFitness := values[k])
  }

  /** How many parents doInit copies in order: all k points if k <= mu, otherwise none. */
  function CopiedInOrder(k: nat, mu: nat): nat
  {
    if k <= mu then k else 0
  }

  /**
   * The parents doInit builds: parent i copies starting point sources[i]
   * (a valid index) with its value; the first CopiedInOrder ones copy
   * points 0, 1, ... in order, the rest come from random draws.
   */
  ghost predicate FilledFrom(previous: seq<Individual>, points: seq<Point>, values: seq<Fitness>,
                             sources: seq<nat>, parents: seq<Individual>)
    requires |values| == |points|
  {
    |sources| == |parents| &&
    (forall i :: 0 <= i < |parents| ==>
      sources[i] < |points| && parents[i] == Filled(Slot(previous, i), points, values, sources[i])) &&
    (forall i :: 0 <= i < CopiedInOrder(|points|, |parents|) ==> sources[i] == i)
  }

  /**
   * What doInit does. An empty point list changes nothing. Otherwise the
   * lattice, its minimum angles and mu are installed first; if mu differs from
   * suggestMu the call fails there, leaving them installed. Otherwise the
   * hyperparameters are set, the counter is reset, the parents are filled and
   * mirrored into the archive, and the bounds are installed.
   */
  ghost predicate InitRan(ops: Operators, prev: State, prevRng: nat, points: seq<Point>,
                          values: seq<Fitness>, box: Box, approx: nat, settings: Settings,
                          r: Outcome, sources: seq<nat>, next: State, nextRng: nat)
    requires |values| == |points|
  {
    if |points| == 0 then
      r == Fail(NoStartingPoints) && next == prev && nextRng == prevRng
    else
      var objectives := |values[0]|;
      var vectors := ops.unitVectors(objectives, ops.ticks(objectives, approx));
      var lattice := prev.(mu := |vectors|, referenceVectors := vectors,
                           initialVectors := vectors, minAngles := ops.minAngles(vectors));
      if |vectors| != SuggestMu(ops, objectives, approx) then
        r == Fail(LatticeSizeMismatch) && next == lattice && nextRng == prevRng
      else
        r == Pass && Ready(next) &&
        next == lattice.(settings := settings, curIteration := 0, bounds := box,
                         parents := next.parents, best := next.best) &&
        FilledFrom(prev.parents, points, values, sources, next.parents)
  }

  /**
   * What init(function, points) does: an infeasible point, then a missing
   * constraint handler, reject the call with nothing changed; otherwise doInit
   * runs on the points, their values, the handler's bounds and the current
   * hyperparameters.
   */
  ghost predicate InitWithRan(ops: Operators, prev: State, prevRng: nat, f: Objective,
                              points: seq<Point>, r: Outcome, sources: seq<nat>,
                              next: State, nextRng: nat)
  {
    if exists i :: 0 <= i < |points| && !f.isFeasible(points[i]) then
      r == Fail(InfeasibleStartingPoint) && next == prev && nextRng == prevRng
    else if f.handler.None? then
      r == Fail(OnlyBoxConstraints) && next == prev && nextRng == prevRng
    else
      InitRan(ops, prev, prevRng, points, Evaluations(f, points), BoundsFor(f).value,
              prev.approxMu, prev.settings, r, sources, next, nextRng)
  }

  /**
   * One updatePopulation: selection marks the pool of parents and offspring
   * with generation counter+1; mu survivors are kept; the archive mirrors them;
   * the reference vectors are adapted iff the counter (before the increment)
   * is a multiple of the adaptation period; the counter grows by one; nothing
   * else changes.
   */
  ghost predicate Updated(ops: Operators, prev: State, offspring: seq<Individual>, next: State)
  {
    var pool := prev.parents + offspring;
    var chosen := ops.select(prev.settings.alpha, prev.settings.maxIterations, pool,
                             prev.referenceVectors, prev.minAngles, prev.curIteration + 1);
    var period := AdaptationPeriod(prev.settings.adaptationFrequency, prev.settings.maxIterations);
    period > 0 &&
    Survivors(Mark(pool, chosen), next.parents, prev.mu) &&
    next.best == Mirror(next.parents) &&
    next.curIteration == prev.curIteration + 1 &&
    (if ShouldAdapt(prev.curIteration, period) then
       (next.referenceVectors, next.minAngles) ==
         ops.adapt(next.parents, prev.referenceVectors, prev.minAngles, prev.initialVectors)
     else
       next.referenceVectors == prev.referenceVectors && next.minAngles == prev.minAngles) &&
    next == prev.(parents := next.parents, best := next.best, curIteration := next.curIteration,
                  referenceVectors := next.referenceVectors, minAngles := next.minAngles)
  }

  /**
   * With operators whose lattice always has suggestMu's cardinality, doInit on
   * a non-empty point list succeeds.
   */
  lemma CoherentInitSucceeds(ops: Operators, prev: State, prevRng: nat, points: seq<Point>,
                             values: seq<Fitness>, box: Box, approx: nat, settings: Settings,
                             r: Outcome, sources: seq<nat>, next: State, nextRng: nat)
    requires |values| == |points| > 0 && LatticeCoherent(ops)
    requires InitRan(ops, prev, prevRng, points, values, box, approx, settings, r, sources, next, nextRng)
    ensures r == Pass && Ready(next) && next.curIteration == 0 && next.settings == settings
    ensures next.mu == |next.parents| == SuggestMu(ops, |values[0]|, approx)
  {
    var objectives := |values[0]|;
    var ticks := ops.ticks(objectives, approx);
    assert |ops.unitVectors(objectives, ticks)| == ops.sumLength(objectives, ticks);
  }

  /** x carries starting point k, and the point's objective value as both fitnesses. */
  predicate HoldsPoint(x: Individual, f: Objective, points: seq<Point>, k: nat)
  {
    k < |points| && x.point == points[k] &&
    x.penalizedFitness == f.eval(points[k]) && x.unpenalizedFitness == f.eval(points[k])
  }

  /**
   * init(function, points) with coherent operators succeeds exactly when the
   * list is non-empty, every point is feasible and the objective has a
   * constraint handler; on success parent i holds starting point sources[i]
   * and its value as both fitnesses.
   */
  lemma CoherentInitWith(ops: Operators, prev: State, prevRng: nat, f: Objective,
                         points: seq<Point>, r: Outcome, sources: seq<nat>, next: State, nextRng: nat)
    requires LatticeCoherent(ops)
    requires InitWithRan(ops, prev, prevRng, f, points, r, sources, next, nextRng)
    ensures r == Pass <==>
      |points| > 0 && f.handler.Some? && forall i :: 0 <= i < |points| ==> f.isFeasible(points[i])
    ensures r == Pass ==> |sources| == |next.parents|
    ensures r == Pass ==>
      forall i :: 0 <= i < |next.parents| ==> HoldsPoint(next.parents[i], f, points, sources[i])
  {
    if (forall i :: 0 <= i < |points| ==> f.isFeasible(points[i])) && f.handler.Some? && |points| > 0 {
      var values := Evaluations(f, points);
      CoherentInitSucceeds(ops, prev, prevRng, points, values, BoundsFor(f).value, prev.approxMu,
                           prev.settings, r, sources, next, nextRng);
      forall i | 0 <= i < |next.parents|
        ensures HoldsPoint(next.parents[i], f, points, sources[i])
      {
        var k := sources[i];
        assert next.parents[i] == Filled(Slot(prev.parents, i), points, values, k);
        assert HoldsPoint(next.parents[i], f, points, k);
      }
    }
  }

  /** A run: states[k+1] is what updatePopulation makes of states[k] and offspring[k]. */
  ghost predicate IsRun(ops: Operators, states: seq<State>, offspring: seq<seq<Individual>>)
  {
    |states| == |offspring| + 1 &&
    forall k :: 0 <= k < |offspring| ==> Updated(ops, states[k], offspring[k], states[k + 1])
  }

  /**
   * Along a run the counter advances by one per generation, the
   * hyperparameters and mu never change, and the population stays in shape.
   */
  lemma {:induction false} RunInvariants(ops: Operators, states: seq<State>,
                                         offspring: seq<seq<Individual>>, k: nat)
    requires IsRun(ops, states, offspring) && k < |states|
    ensures states[k].curIteration == states[0].curIteration + k
    ensures states[k].settings == states[0].settings && states[k].mu == states[0].mu
    ensures states[k].initialVectors == states[0].initialVectors
    ensures Ready(states[0]) ==> Ready(states[k])
  {
    if k > 0 {
      RunInvariants(ops, states, offspring, k - 1);
      assert Updated(ops, states[k - 1], offspring[k - 1], states[k]);
    }
  }

  /** Whether generation k of a run adapted its reference vectors. */
  ghost predicate AdaptedAt(states: seq<State>, k: nat)
    requires k < |states|
  {
    var period := AdaptationPeriod(states[k].settings.adaptationFrequency, states[k].settings.maxIterations);
    period > 0 && ShouldAdapt(states[k].curIteration, period)
  }

  /** How many of the first n generations of a run adapted their reference vectors. */
  ghost function AdaptationEvents(states: seq<State>, n: nat): nat
    requires n <= |states|
  {
    if n == 0 then 0 else AdaptationEvents(states, n - 1) + (if AdaptedAt(states, n - 1) then 1 else 0)
  }

  /**
   * A run of n >= 1 generations from counter 0 adapts the reference vectors
   * ceil(n / period) times, where period = ceil(adaptationFrequency *
   * maxIterations): at generations 0, period, 2 * period, ...
   */
  lemma RunAdaptations(ops: Operators, states: seq<State>, offspring: seq<seq<Individual>>)
    requires IsRun(ops, states, offspring) && |offspring| > 0 && states[0].curIteration == 0
    ensures var period := AdaptationPeriod(states[0].settings.adaptationFrequency,
                                           states[0].settings.maxIterations);
      period > 0 && AdaptationEvents(states, |offspring|) == (|offspring| + period - 1) / period
  {
    var period := AdaptationPeriod(states[0].settings.adaptationFrequency, states[0].settings.maxIterations);
    assert Updated(ops, states[0], offspring[0], states[1]);
    EventsCount(ops, states, offspring, |offspring|, period);
    AdaptationsCount(|offspring|, period);
  }

  lemma {:induction false} EventsCount(ops: Operators, states: seq<State>, offspring: seq<seq<Individual>>,
                                       n: nat, period: nat)
    requires IsRun(ops, states, offspring) && n <= |offspring| && states[0].curIteration == 0
    requires period > 0
    requires period == AdaptationPeriod(states[0].settings.adaptationFrequency, states[0].settings.maxIterations)
    ensures AdaptationEvents(states, n) == Adaptations(n, period)
  {
    if n > 0 {
      EventsCount(ops, states, offspring, n - 1, period);
      RunInvariants(ops, states, offspring, n - 1);
    }
  }

  /**
   * With the default adaptationFrequency 0.1 and maxIterations 200, the
   * period is 20 and a full run adapts 10 times.
   */
  lemma DefaultSchedule()
    ensures AdaptationPeriod(0.1, 200) == 20
    ensures Adaptations(200, 20) == 10
  {
    AdaptationsCount(200, 20);
  }

  class Rvea {
    const rng: Rng
    const ops: Operators

    var crossoverProbability: real
    var nc: real
    var nm: real
    var alpha: real
    var adaptationFrequency: real
    var maxIterations: nat
    var mu: nat
    var approxMu: nat
    var parents: seq<Individual>
    var best: seq<BestPoint>
    var curIteration: nat
    var referenceVectors: seq<Vector>
    var minAngles: seq<real>
    var initialVectors: seq<Vector>
    var bounds: Box

    function Current(): State
      reads this
    {
      State(Settings(nm, nc, crossoverProbability, alpha, adaptationFrequency, maxIterations),
            approxMu, mu, parents, best, curIteration, referenceVectors, minAngles,
            initialVectors, bounds)
    }

    /** The defaults a new optimizer starts from; maxIterations must be set by the caller. */
    constructor (rng: Rng, ops: Operators)
      ensures this.rng == rng && this.ops == ops
      ensures approxMu == 100 && mu == 100
      ensures crossoverProbability == 0.9
      ensures nc == 20.0 && nm == 20.0
      ensures alpha == 2.0 && adaptationFrequency == 0.1
      ensures maxIterations == 0
      ensures parents == [] && best == []
      ensures referenceVectors == [] && minAngles == [] && initialVectors == []
    {
      this.rng := rng;
      this.ops := ops;
      approxMu := 100;
      mu := approxMu;
      crossoverProbability := 0.9;
      nc := 20.0;
      nm := 20.0;
      alpha := 2.0;
      adaptationFrequency := 0.1;
      maxIterations := 0;
      parents := [];
      best := [];
      referenceVectors, minAngles, initialVectors := [], [], [];
    }

    /** init(function): propose mu() starting points, then init with them. */
    method Init(f: Objective) returns (r: Outcome, ghost sources: seq<nat>)
      modifies this, rng
      ensures !f.canProposeStartingPoint ==>
        r == Fail(NoStartingPoint) && Current() == old(Current()) && rng.state == old(rng.state)
      ensures f.canProposeStartingPoint ==>
        InitWithRan(ops, old(Current()), old(rng.state), f, Proposals(f, old(mu)), r, sources,
                    Current(), rng.state)
    {
      if !f.canProposeStartingPoint {
        return Fail(NoStartingPoint), [];
      }
      var points := ProposeStartingPoints(f, mu);
      assert points == Proposals(f, mu);
      r, sources := InitWith(f, points);
    }

    /** init(function, points). */
    method InitWith(f: Objective, points: seq<Point>) returns (r: Outcome, ghost sources: seq<nat>)
      modifies this, rng
      ensures InitWithRan(ops, old(Current()), old(rng.state), f, points, r, sources,
                          Current(), rng.state)
    {
      var values := EvaluateStartingPoints(f, points);
      if values.Failure? {
        return Fail(values.error), [];
      }
      var box := BoundsFor(f);
      if box.Failure? {
        return Fail(box.error), [];
      }
      r, sources := DoInit(points, values.value, box.value, approxMu,
                           Settings(nm, nc, crossoverProbability, alpha, adaptationFrequency, maxIterations));
    }

    /** Install a lattice of reference vectors with its minimum angles; mu is its size. */
    method SetLattice(vectors: seq<Vector>, angles: seq<real>)
      modifies this
      ensures Current() == old(Current()).(mu := |vectors|, referenceVectors := vectors,
                                           initialVectors := vectors, minAngles := angles)
    {
      referenceVectors := vectors;
      initialVectors := vectors;
      minAngles := angles;
      mu := |vectors|;
    }

    /** Install the hyperparameters. */
    method SetSettings(s: Settings)
      modifies this
      ensures Current() == old(Current()).(settings := s)
    {
      nm, nc, crossoverProbability := s.nm, s.nc, s.crossoverProbability;
      alpha, adaptationFrequency, maxIterations := s.alpha, s.adaptationFrequency, s.maxIterations;
    }

    /** Install a generation: parents, archive, counter and reference vectors. */
    method SetGeneration(newParents: seq<Individual>, newBest: seq<BestPoint>, counter: nat,
                         vectors: seq<Vector>, angles: seq<real>)
      modifies this
      ensures Current() == old(Current()).(parents := newParents, best := newBest, curIteration := counter,
                                           referenceVectors := vectors, minAngles := angles)
    {
      parents, best, curIteration := newParents, newBest, counter;
      referenceVectors, minAngles := vectors, angles;
    }

    /** doInit. */
    method DoInit(points: seq<Point>, values: seq<Fitness>, box: Box, approx: nat, s: Settings)
      returns (r: Outcome, ghost sources: seq<nat>)
      requires |values| == |points|
      modifies this, rng
      ensures InitRan(ops, old(Current()), old(rng.state), points, values, box, approx, s, r,
                      sources, Current(), rng.state)
    {
      if |points| == 0 {
        return Fail(NoStartingPoints), [];
      }
      var prev := Current();
      var objectives := |values[0]|;
      var ticks := ops.ticks(objectives, approx);
      var vectors := ops.unitVectors(objectives, ticks);
      SetLattice(vectors, ops.minAngles(vectors));
      if |vectors| != SuggestMu(ops, objectives, approx) {
        return Fail(LatticeSizeMismatch), [];
      }
      var filled;
      filled, sources := FillParents(prev.parents, points, values, |vectors|);
      var archive := MirrorInto(filled, Resize(prev.best, |vectors|, BestPoint([], [])));
      SetSettings(s);
      SetGeneration(filled, archive, 0, referenceVectors, minAngles);
      bounds := box;
      r := Pass;
    }

    /**
     * The two loops of doInit that fill mu parent slots (resized from
     * `previous`) from the starting points: in order when there are at most
     * mu points, then by uniform random picks.
     */
    method FillParents(previous: seq<Individual>, points: seq<Point>, values: seq<Fitness>, mu: nat)
      returns (filled: seq<Individual>, ghost sources: seq<nat>)
      requires 0 < |points| == |values|
      modifies rng
      ensures |filled| == mu
      ensures FilledFrom(previous, points, values, sources, filled)
    {
      filled := Resize(previous, mu, DefaultIndividual);
      sources := [];
      // fewer points than mu: copy them all in order
      var copied := 0;
      if |points| <= mu {
        copied := |points|;
        var i := 0;
        while i < copied
          invariant 0 <= i <= copied
          invariant |filled| == mu && |sources| == i
          invariant forall j :: 0 <= j < i ==>
            sources[j] == j && filled[j] == Filled(Slot(previous, j), points, values, j)
          invariant forall j :: i <= j < mu ==> filled[j] == Slot(previous, j)
        {
          filled := filled[i := Filled(filled[i], points, values, i)];
          sources := sources + [i];
          i := i + 1;
        }
      }
      // fill the remaining slots with random picks among the points
      var i := copied;
      while i < mu
        invariant copied <= i <= mu
        invariant |filled| == mu && |sources| == i
        invariant forall j :: 0 <= j < copied ==> sources[j] == j
        invariant forall j :: 0 <= j < i ==>
          sources[j] < |points| && filled[j] == Filled(Slot(previous, j), points, values, sources[j])
        invariant forall j :: i <= j < mu ==> filled[j] == Slot(previous, j)
      {
        var index := rng.Discrete(0, |points| - 1);
        filled := filled[i := Filled(filled[i], points, values, index)];
        sources := sources + [index];
        i := i + 1;
      }
      assert CopiedInOrder(|points|, mu) == copied;
    }

    /**
     * step: breed mu offspring, evaluate them, update the population. It fails,
     * changing nothing, when maxIterations is 0.
     */
    method Step(f: Objective) returns (r: Outcome, ghost d: Draws)
      requires maxIterations > 0 ==> |best| == mu && (mu > 0 ==> |parents| > 0)
      requires maxIterations > 0 ==> AdaptationPeriod(adaptationFrequency, maxIterations) > 0
      modifies this, rng
      ensures old(maxIterations) == 0 ==>
        r == Fail(MaxIterationsNotSet) && Current() == old(Current()) && rng.state == old(rng.state)
      ensures old(maxIterations) > 0 ==>
        r == Pass && Ready(Current()) && DrawsFit(d, old(|parents|), old(mu)) &&
        Updated(ops, old(Current()),
                Evaluated(ops, f, Offspring(ops, old(nc), old(nm), old(bounds), old(parents), old(mu), d)),
                Current())
      ensures forall k :: 0 <= k < |d.tosses| ==>
        (old(crossoverProbability) <= 0.0 ==> !d.tosses[k]) && (old(crossoverProbability) >= 1.0 ==> d.tosses[k])
    {
      var offspring;
      offspring, d := GenerateOffspring();
      if offspring.Failure? {
        return Fail(offspring.error), d;
      }
      UpdatePopulation(Evaluated(ops, f, offspring.value));
      r := Pass;
    }

    /**
     * generateOffspring: fails before drawing anything when maxIterations is 0;
     * otherwise the offspring are the function Offspring of the draws made.
     */
    method GenerateOffspring() returns (r: Result<seq<Individual>>, ghost d: Draws)
      requires maxIterations > 0 && mu > 0 ==> |parents| > 0
      modifies rng
      ensures maxIterations == 0 ==> r == Failure(MaxIterationsNotSet) && rng.state == old(rng.state)
      ensures maxIterations > 0 ==>
        r.Success? && DrawsFit(d, |parents|, mu) && r.value == Offspring(ops, nc, nm, bounds, parents, mu, d)
      ensures forall k :: 0 <= k < |d.tosses| ==>
        (crossoverProbability <= 0.0 ==> !d.tosses[k]) && (crossoverProbability >= 1.0 ==> d.tosses[k])
    {
      if maxIterations == 0 {
        return Failure(MaxIterationsNotSet), Draws([], [], [], []);
      }
      var pool, picks := SelectMatingPool(parents, mu);
      var crossed, tosses, seeds := CrossoverPairs(pool, nc, bounds, crossoverProbability);
      var mutated, mutationSeeds := MutateAll(crossed, nm, bounds);
      d := Draws(picks, tosses, seeds, mutationSeeds);
      r := Success(mutated);
    }

    /** The binary tournament loop: mu slots, two uniform contestants each. */
    method SelectMatingPool(parents: seq<Individual>, mu: nat) returns (pool: seq<Individual>, ghost picks: seq<nat>)
      requires mu > 0 ==> |parents| > 0
      modifies rng
      ensures |picks| == 2 * mu && forall k :: 0 <= k < |picks| ==> picks[k] < |parents|
      ensures pool == Tournament(parents, picks, mu)
    {
      pool := [];
      picks := [];
      var i := 0;
      while i < mu
        invariant 0 <= i <= mu
        invariant |picks| == 2 * i && forall k :: 0 <= k < |picks| ==> picks[k] < |parents|
        invariant |pool| == i
        invariant forall j :: 0 <= j < i ==> pool[j] == Winner(parents, picks[2 * j], picks[2 * j + 1])
      {
        var a := rng.Discrete(0, |parents| - 1);
        var b := rng.Discrete(0, |parents| - 1);
        pool := pool + [Winner(parents, a, b)];
        picks := picks + [a, b];
        i := i + 1;
      }
    }

    /**
     * The crossover loop over the pairs (i, i+1), i even and i+1 < mu: one coin
     * toss with the crossover probability per pair, one operator seed per
     * crossed pair (0 is recorded for a pair left alone).
     */
    method CrossoverPairs(pool: seq<Individual>, nc: real, box: Box, probability: real)
      returns (crossed: seq<Individual>, ghost tosses: seq<bool>, ghost seeds: seq<nat>)
      modifies rng
      ensures |tosses| == |pool| / 2 && |seeds| == |pool| / 2
      ensures crossed == Crossed(ops.crossover, nc, box, pool, tosses, seeds)
      ensures forall k :: 0 <= k < |tosses| ==>
        (probability <= 0.0 ==> !tosses[k]) && (probability >= 1.0 ==> tosses[k])
    {
      crossed := pool;
      tosses, seeds := [], [];
      var i := 0;
      while i + 1 < |pool|
        invariant i == 2 * |tosses| && |seeds| == |tosses| && i <= |pool|
        invariant crossed == Crossed(ops.crossover, nc, box, pool[..i], tosses, seeds) + pool[i..]
        invariant forall k :: 0 <= k < |tosses| ==>
          (probability <= 0.0 ==> !tosses[k]) && (probability >= 1.0 ==> tosses[k])
      {
        var toss := rng.CoinToss(probability);
        var seed := 0;
        var first, second := crossed[i], crossed[i + 1];
        if toss {
          seed := rng.Next();
          var children := ops.crossover(nc, box, seed, first.point, second.point);
          first, second := first.(point := children.0), second.(point := children.1);
        }
        assert (first, second) == CrossPair(ops.crossover, nc, box, crossed[i], crossed[i + 1], toss, seed);
        CrossedStep(ops.crossover, nc, box, pool, i, tosses, seeds, toss, seed, crossed);
        crossed := crossed[i := first][i + 1 := second];
        tosses := tosses + [toss];
        seeds := seeds + [seed];
        i := i + 2;
      }
      CrossedDone(ops.crossover, nc, box, pool, i, tosses, seeds, crossed);
    }

    /** The mutation loop: every slot's point mutated with a fresh operator seed. */
    method MutateAll(pool: seq<Individual>, nm: real, box: Box)
      returns (mutated: seq<Individual>, ghost seeds: seq<nat>)
      modifies rng
      ensures |seeds| == |pool|
      ensures mutated == Mutated(ops.mutation, nm, box, pool, seeds)
    {
      mutated := pool;
      seeds := [];
      var i := 0;
      while i < |pool|
        invariant 0 <= i <= |pool|
        invariant |mutated| == |pool| && |seeds| == i
        invariant forall j :: 0 <= j < i ==>
          mutated[j] == pool[j].(point := ops.mutation(nm, box, seeds[j], pool[j].point))
        invariant forall j :: i <= j < |pool| ==> mutated[j] == pool[j]
      {
        var seed := rng.Next();
        mutated := mutated[i := mutated[i].(point := ops.mutation(nm, box, seed, mutated[i].point))];
        seeds := seeds + [seed];
        i := i + 1;
      }
    }

    /**
     * updatePopulation: append the offspring, let selection mark survivors,
     * partition by the mark and erase everything from begin()+mu, refresh the
     * archive, adapt the reference vectors if scheduled, advance the counter.
     */
    method UpdatePopulation(offspring: seq<Individual>)
      requires mu <= |parents| + |offspring| && |best| == mu
      requires AdaptationPeriod(adaptationFrequency, maxIterations) > 0
      modifies this
      ensures Ready(Current())
      ensures Updated(ops, old(Current()), offspring, Current())
    {
      var prev := Current();
      var pool := parents + offspring;
      var chosen := ops.select(alpha, maxIterations, pool, referenceVectors, minAngles, curIteration + 1);
      var survivors := PartitionTruncate(Mark(pool, chosen), mu);
      var archive := MirrorInto(survivors, best);
      var period := AdaptationPeriod(adaptationFrequency, maxIterations);
      var vectors, angles := referenceVectors, minAngles;
      if ShouldAdapt(curIteration, period) {
        var adapted := ops.adapt(survivors, referenceVectors, minAngles, initialVectors);
        vectors, angles := adapted.0, adapted.1;
      }
      SetGeneration(survivors, archive, curIteration + 1, vectors, angles);
    }
  }
}
