/*
 * Values the RVEA optimizer works on, and the collaborators it calls without
 * knowing their internals (the objective function, the variation, selection
 * and adaptation operators, the lattice helpers).
 */
module Base {

  /** A search point (RealVector). */
  type Point = seq<real>
  /** An objective vector (RealVector). */
  type Fitness = seq<real>
  /** One row of the reference-vector matrix. */
  type Vector = seq<real>

  datatype Option<T> = None | Some(value: T)

  /** The failures init and step can report. */
  datatype Error =
    | NoStartingPoint          // the objective cannot propose a starting point
    | InfeasibleStartingPoint  // a supplied starting point is not feasible
    | OnlyBoxConstraints       // the constraint-handler check rejected the objective
    | NoStartingPoints         // doInit was given an empty list of points
    | LatticeSizeMismatch      // mu differs from suggestMu (internal size check)
    | MaxIterationsNotSet      // step called while maxIterations == 0

  datatype Result<T> = Success(value: T) | Failure(error: Error)

  datatype Outcome = Pass | Fail(error: Error)

  /**
   * An individual of the population: its search point, its penalized and
   * unpenalized objective vectors, its rank (used by the tournament) and the
   * flag environmental selection sets.
   */
  datatype Individual = Individual(
    point: Point,
    penalizedFitness: Fitness,
    unpenalizedFitness: Fitness,
    rank: nat,
    selected: bool)

  /** A default-constructed individual. */
  const DefaultIndividual := Individual([], [], [], 0, false)

  /** One entry of the best-point archive: a search point and its objective vector. */
  datatype BestPoint = BestPoint(point: Point, value: Fitness)

  /** Box bounds handed to crossover and mutation. */
  datatype Box = Box(lower: Point, upper: Point)

  /** A constraint handler: box constraints with their bounds, or any other kind. */
  datatype ConstraintHandler = BoxHandler(lower: Point, upper: Point) | OtherHandler

  /**
   * The objective function as the optimizer sees it. `propose(k)` is the point
   * the k-th call of proposeStartingPoint returns.
   */
  datatype Objective = Objective(
    numberOfVariables: nat,
    canProposeStartingPoint: bool,
    propose: nat -> Point,
    isFeasible: Point -> bool,
    eval: Point -> Fitness,
    handler: Option<ConstraintHandler>)

  /** Simulated binary crossover: shape nc, bounds, random seed, two parents to two children. */
  type CrossoverOp = (real, Box, nat, Point, Point) -> (Point, Point)

  /** Polynomial mutation: shape nm, bounds, random seed, a point to its mutant. */
  type MutationOp = (real, Box, nat, Point) -> Point

  /**
   * The operators RVEA delegates to.
   *  - ticks(objectives, approxMu): computeOptimalLatticeTicks
   *  - sumLength(objectives, ticks): the lattice cardinality (detail::sumlength)
   *  - unitVectors(objectives, ticks): unitVectorsOnLattice, one vector per row
   *  - minAngles(vectors): the minimum-angle table (updateAngles)
   *  - evaluate(objective, point): the penalizing evaluator, (penalized, unpenalized)
   *  - select(alpha, maxIterations, pool, vectors, angles, generation): the indices
   *    reference-vector-guided selection marks as selected
   *  - adapt(population, vectors, angles, initialVectors): reference-vector
   *    adaptation, the new vectors and their minimum-angle table
   */
  datatype Operators = Operators(
    ticks: (nat, nat) -> nat,
    sumLength: (nat, nat) -> nat,
    unitVectors: (nat, nat) -> seq<Vector>,
    minAngles: seq<Vector> -> seq<real>,
    crossover: CrossoverOp,
    mutation: MutationOp,
    evaluate: (Objective, Point) -> (Fitness, Fitness),
    select: (real, nat, seq<Individual>, seq<Vector>, seq<real>, nat) -> set<nat>,
    adapt: (seq<Individual>, seq<Vector>, seq<real>, seq<Vector>) -> (seq<Vector>, seq<real>))

  /** The lattice helpers agree: the lattice has as many vectors as sumLength counts. */
  ghost predicate LatticeCoherent(ops: Operators)
  {
    forall objectives: nat, ticks: nat ::
      |ops.unitVectors(objectives, ticks)| == ops.sumLength(objectives, ticks)
  }
}
