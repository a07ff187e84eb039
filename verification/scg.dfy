/** The `opt_SCG` adapter: hands the configuration to the scaled conjugate
    gradient routine and unpacks its result. The routine itself is a
    parameter of `Run`. */
module Scg {
  import opened Wrappers
  import opened Exceptions
  import opened Optimizer
  import PyList

  const Name: string := "Scaled Conjugate Gradients"

  /** The keyword arguments of the routine, passed one by one; the
      tolerances are passed even when unset, as `None`. */
  datatype Args = Args(
    display: bool, maxIters: int, maxFEval: int,
    xtol: Option<Scalar>, ftol: Option<Scalar>, gtol: Option<Scalar>)

  function CallArgs(c: Config): (a: Args)
    ensures a.display == c.messages
    ensures a.maxIters == c.maxIters && a.maxFEval == c.maxFEval
    ensures a.xtol == c.xtol && a.ftol == c.ftol && a.gtol == c.gtol
  {
    Args(c.messages, c.maxIters, c.maxFEval, c.xtol, c.ftol, c.gtol)
  }

  /** The routine's result tuple `(x, trace, funct_eval, status)`. */
  datatype Return = Return(x: Vector, trace: seq<Scalar>, functEval: int, status: string)

  /** `opt_SCG.opt`: requires both `f` and `fp`, calls the routine and takes
      the optimal value from the end of the returned trace, which raises
      `IndexError` when the trace is empty. */
  function Run(c: Config, f: Option<Objective>, fp: Option<Gradient>,
               backend: (Vector, Args) -> Return): (r: Result<Outcome, Error>)
    ensures f.None? || fp.None? ==> r == Failure(AssertionError(""))
    ensures r.Success? <==> f.Some? && fp.Some? && |backend(c.xInit, CallArgs(c)).trace| > 0
    ensures f.Some? && fp.Some? && r.Failure? ==> r.error.IndexError?
    ensures r.Success? ==>
      var ret := backend(c.xInit, CallArgs(c));
      && r.value.xOpt == ret.x
      && r.value.trace == Some(ret.trace)
      && r.value.fOpt == ret.trace[|ret.trace| - 1]
      && r.value.functEval == ret.functEval
      && r.value.status == ret.status
  {
    if f.None? || fp.None? then Failure(AssertionError(""))
    else
      var ret := backend(c.xInit, CallArgs(c));
      match PyList.Index(ret.trace, -1)
      case Failure(e) => Failure(e)
      case Success(last) => Success(Outcome(ret.x, last, ret.functEval, ret.status, Some(ret.trace)))
  }

  /** For a constructed configuration the routine is silent and its
      evaluation budget equals its iteration budget. */
  lemma NormalisedCall(c: Config)
    requires Normalised(c)
    ensures !CallArgs(c).display
    ensures CallArgs(c).maxFEval == CallArgs(c).maxIters
  {
  }
}
