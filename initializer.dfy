// Weight initialisation (src/core/Initializer.cpp). An initializer is a
// strategy and a seed; `apply` overwrites a matrix in place. Every random
// strategy builds a fresh generator from the stored seed and draws once per
// cell in row-major order, so cell k receives the k-th draw of that seed.
// The generator itself is left abstract: `UniformDraw` and `NormalDraw`
// stand for the k-th sample of a distribution seeded with `seed`.
module Initializers {
  import opened Common
  import opened MatrixSpec
  import Matrices

  datatype Strategy = Zeros | Ones | RandomUniform | RandomNormal | GlorotUniform | HeNormal

  datatype Initializer = Initializer(strategy: Strategy, seed: nat)

  /** Samples of a uniform distribution on [-limit, limit]: never outside it. */
  type UniformSource = f: (nat, int, real) -> real
    | forall seed: nat, k: int, limit: real :: limit >= 0.0 ==> -limit <= f(seed, k, limit) <= limit
    witness (seed: nat, k: int, limit: real) => 0.0

  /** The k-th draw of a seeded uniform distribution on [-limit, limit]. */
  const UniformDraw: UniformSource

  /** The k-th draw of a seeded normal distribution with mean 0 and the given deviation. */
  const NormalDraw: (nat, int, real) -> real

  /** The RANDOM_UNIFORM and RANDOM_NORMAL spread. */
  const Spread: real := 0.05

  /** sqrt(6 / (fan_in + fan_out)); a matrix without cells never uses it. */
  function GlorotLimit(rows: nat, cols: nat): (l: real)
    ensures l >= 0.0
  {
    if rows + cols == 0 then 0.0 else Sqrt(6.0 / (rows + cols) as real)
  }

  /** sqrt(2 / fan_in), which depends on the row count alone. */
  function HeDeviation(rows: nat): real
  {
    if rows == 0 then 0.0 else Sqrt(2.0 / rows as real)
  }

  /** The value `apply` stores in flat cell k of a rows x cols matrix. */
  function Draw(init: Initializer, rows: nat, cols: nat, k: int): real
  {
    match init.strategy
    case Zeros => 0.0
    case Ones => 1.0
    case RandomUniform => UniformDraw(init.seed, k, Spread)
    case RandomNormal => NormalDraw(init.seed, k, Spread)
    case GlorotUniform => UniformDraw(init.seed, k, GlorotLimit(rows, cols))
    case HeNormal => NormalDraw(init.seed, k, HeDeviation(rows))
  }

  /** The matrix `apply` leaves behind: the same shape, cell (i, j) the draw at i*cols+j. */
  function Initialized(init: Initializer, rows: nat, cols: nat): (m: Mat)
    ensures Wf(m) && m.rows == rows && m.cols == cols
  {
    Tabulate(rows, cols, (i, j) => Draw(init, rows, cols, i * cols + j))
  }

  /** `Initializer::apply`: dispatch on the strategy; the shape is kept. */
  method Apply(init: Initializer, m: Matrices.Matrix)
    requires m.Valid()
    modifies m
    ensures m.Valid() && m.Value() == Initialized(init, old(m.rows), old(m.cols))
  {
    var rows, cols := m.rows, m.cols;
    match init.strategy {
      case Zeros =>
        m.Fill(0.0);
        Ext(m.Value(), Initialized(init, rows, cols));
      case Ones =>
        m.Fill(1.0);
        Ext(m.Value(), Initialized(init, rows, cols));
      case _ =>
        m.Apply((i, j, x) => Draw(init, rows, cols, i * cols + j));
        Ext(m.Value(), Initialized(init, rows, cols));
    }
  }

  /** ZEROS and ONES fill every cell with 0 and 1 respectively. */
  lemma ConstantStrategies(seed: nat, rows: nat, cols: nat)
    ensures Initialized(Initializer(Zeros, seed), rows, cols) == Const(rows, cols, 0.0)
    ensures Initialized(Initializer(Ones, seed), rows, cols) == Const(rows, cols, 1.0)
  {
    Ext(Initialized(Initializer(Zeros, seed), rows, cols), Const(rows, cols, 0.0));
    Ext(Initialized(Initializer(Ones, seed), rows, cols), Const(rows, cols, 1.0));
  }

  /** The result depends only on the strategy, the seed and the shape, never on the old cells. */
  lemma SameSeedSameWeights(a: Initializer, b: Initializer, rows: nat, cols: nat, i: nat, j: nat)
    requires a.strategy == b.strategy && a.seed == b.seed && i < rows && j < cols
    ensures Get(Initialized(a, rows, cols), i, j) == Get(Initialized(b, rows, cols), i, j)
  {
  }

  /** RANDOM_UNIFORM cells lie in [-0.05, 0.05]. */
  lemma UniformBounded(seed: nat, rows: nat, cols: nat, i: nat, j: nat)
    requires i < rows && j < cols
    ensures -0.05 <= Get(Initialized(Initializer(RandomUniform, seed), rows, cols), i, j) <= 0.05
  {
  }

  /** GLOROT_UNIFORM cells lie within +-sqrt(6 / (rows + cols)). */
  lemma GlorotBounded(seed: nat, rows: nat, cols: nat, i: nat, j: nat)
    requires i < rows && j < cols
    ensures AbsR(Get(Initialized(Initializer(GlorotUniform, seed), rows, cols), i, j)) <= Sqrt(6.0 / (rows + cols) as real)
  {
    var l := GlorotLimit(rows, cols);
    assert l == Sqrt(6.0 / (rows + cols) as real);
    var x := UniformDraw(seed, i * cols + j, l);
    assert Get(Initialized(Initializer(GlorotUniform, seed), rows, cols), i, j) == x;
    assert -l <= x <= l;
  }

  /** HE_NORMAL draws with deviation sqrt(2 / rows): the column count plays no part. */
  lemma HeDeviationFromRows(seed: nat, rows: nat, cols: nat, i: nat, j: nat)
    requires i < rows && j < cols
    ensures Get(Initialized(Initializer(HeNormal, seed), rows, cols), i, j)
         == NormalDraw(seed, i * cols + j, Sqrt(2.0 / rows as real))
  {
  }
}
