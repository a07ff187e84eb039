/** The state shared by every adapter: the normalised configuration built by
    the base-class constructor, the values placed in a backend's keyword
    arguments, and the result fields an adapter fills in after a run. */
module Optimizer {
  import opened Wrappers

  /** A floating-point number the adapters only pass through (tolerances,
      parameters, objective values); nothing here computes with it. */
  type Scalar = real

  /** A parameter vector. */
  type Vector = seq<Scalar>

  /** The caller's combined objective-and-gradient callback `f_fp`. */
  type ObjectiveAndGradient = Vector -> (Scalar, Vector)

  /** The caller's objective callback `f`. */
  type Objective = Vector -> Scalar

  /** The caller's gradient callback `fp`. */
  type Gradient = Vector -> Vector

  /** A value passed to a backend as a keyword argument. */
  datatype Value = Num(x: Scalar) | Int(n: int) | Flag(b: bool)

  /** The attributes the constructor stores on every adapter. */
  datatype Config = Config(
    xInit: Vector,
    messages: bool,
    maxFEval: int,
    maxIters: int,
    bfgsFactor: Option<Scalar>,
    xtol: Option<Scalar>,
    gtol: Option<Scalar>,
    ftol: Option<Scalar>)

  /** The result attributes an adapter sets by the end of a normal run. */
  datatype Outcome = Outcome(
    xOpt: Vector,
    fOpt: Scalar,
    functEval: int,
    status: string,
    trace: Option<seq<Scalar>>)

  /** The constructor's default budgets, `1e4` and `1e3` (floats). */
  const DefaultMaxFEval: real := 10000.0
  const DefaultMaxIters: real := 1000.0

  /** Python's `int(x)` on a finite float: truncation toward zero. */
  function Trunc(x: real): (n: int)
    ensures 0.0 <= x ==> n as real <= x < n as real + 1.0
    ensures x < 0.0 ==> n as real - 1.0 < x <= n as real
  {
    if 0.0 <= x then x.Floor else -((-x).Floor)
  }

  /** `int` leaves an integral value unchanged. */
  lemma TruncOfIntegral(k: int)
    ensures Trunc(k as real) == k
  {
  }

  /** `Optimizer.__init__`: stores its arguments, except that `messages` is
      always switched off and the evaluation budget is taken from
      `max_iters`; the `max_f_eval` argument is read by no one. */
  function Construct(
    xInit: Vector, messages: bool, maxFEval: real, maxIters: real,
    ftol: Option<Scalar>, gtol: Option<Scalar>, xtol: Option<Scalar>,
    bfgsFactor: Option<Scalar>): (c: Config)
    ensures !c.messages
    ensures c.maxIters == Trunc(maxIters)
    ensures c.maxFEval == c.maxIters
    ensures c.xInit == xInit && c.bfgsFactor == bfgsFactor
    ensures c.xtol == xtol && c.gtol == gtol && c.ftol == ftol
  {
    Config(xInit, false, Trunc(maxIters), Trunc(maxIters), bfgsFactor, xtol, gtol, ftol)
  }

  /** The invariant every constructed configuration satisfies. */
  predicate Normalised(c: Config) {
    !c.messages && c.maxFEval == c.maxIters
  }

  /** Whatever the caller passes for `messages` and `max_f_eval`, the
      constructed configuration is the same and is normalised. */
  lemma ConstructIgnoresMessagesAndMaxFEval(
    xInit: Vector, m1: bool, m2: bool, e1: real, e2: real, maxIters: real,
    ftol: Option<Scalar>, gtol: Option<Scalar>, xtol: Option<Scalar>,
    bfgsFactor: Option<Scalar>)
    ensures Construct(xInit, m1, e1, maxIters, ftol, gtol, xtol, bfgsFactor)
         == Construct(xInit, m2, e2, maxIters, ftol, gtol, xtol, bfgsFactor)
    ensures Normalised(Construct(xInit, m1, e1, maxIters, ftol, gtol, xtol, bfgsFactor))
  {
  }

  /** With the default arguments both budgets are 1000: the default
      `max_f_eval` of 10000 never takes effect. */
  lemma DefaultBudgets(xInit: Vector)
    ensures Construct(xInit, false, DefaultMaxFEval, DefaultMaxIters, None, None, None, None).maxIters == 1000
    ensures Construct(xInit, false, DefaultMaxFEval, DefaultMaxIters, None, None, None, None).maxFEval == 1000
  {
  }
}
