/** The `opt_simplex` adapter: translates the configuration into keyword
    arguments for SciPy's Nelder-Mead routine and decodes its full-output
    tuple. The routine itself is a parameter of `Run`. */
module Simplex {
  import opened Wrappers
  import opened Exceptions
  import opened Optimizer
  import PyList

  const Name: string := "Nelder-Mead simplex routine (via Scipy)"

  /** The status table, indexed by the backend's `warnflag`. */
  const Statuses: seq<string> := [
    "Converged", "Maximum number of function evaluations made",
    "Maximum number of iterations reached"]

  /** The tolerances forwarded to the backend, each only when set. */
  function OptDict(c: Config): (d: map<string, Value>)
    ensures d.Keys <= {"xtol", "ftol"}
    ensures "xtol" in d <==> c.xtol.Some?
    ensures "ftol" in d <==> c.ftol.Some?
    ensures c.xtol.Some? ==> d["xtol"] == Num(c.xtol.value)
    ensures c.ftol.Some? ==> d["ftol"] == Num(c.ftol.value)
  {
    var d0: map<string, Value> := map[];
    var d1 := if c.xtol.Some? then d0["xtol" := Num(c.xtol.value)] else d0;
    if c.ftol.Some? then d1["ftol" := Num(c.ftol.value)] else d1
  }

  /** The derivative-free method has no gradient tolerance: a set one is
      reported and dropped. */
  function Ignored(c: Config): (names: seq<string>)
    ensures "gtol" in names <==> c.gtol.Some?
    ensures |names| <= 1
    ensures forall k :: k in names ==> k == "gtol"
    ensures forall k :: k in names ==> k !in OptDict(c)
  {
    if c.gtol.Some? then ["gtol"] else []
  }

  /** Every keyword argument of the backend call: `disp`, `maxfun` and
      `full_output` given explicitly, then the unpacked tolerances. */
  function Kwargs(c: Config): (kw: map<string, Value>)
    ensures {"disp", "maxfun", "full_output"} !! OptDict(c).Keys
    ensures kw.Keys == {"disp", "maxfun", "full_output"} + OptDict(c).Keys
    ensures "gtol" !in kw && "pgtol" !in kw
    ensures kw["disp"] == Flag(c.messages)
    ensures kw["maxfun"] == Int(c.maxFEval)
    ensures kw["full_output"] == Flag(true)
    ensures forall k :: k in OptDict(c) ==> kw[k] == OptDict(c)[k]
  {
    map["disp" := Flag(c.messages), "maxfun" := Int(c.maxFEval), "full_output" := Flag(true)]
      + OptDict(c)
  }

  /** The status string for a `warnflag`, under list-subscript rules. */
  function Status(warnflag: int): (r: Result<string, Error>)
    ensures r.Success? <==> -3 <= warnflag < 3
    ensures r.Failure? ==> r.error.IndexError?
    ensures 0 <= warnflag < 3 ==> r == Success(Statuses[warnflag])
    ensures -3 <= warnflag < 0 ==> r == Success(Statuses[warnflag + 3])
  {
    PyList.Index(Statuses, warnflag)
  }

  /** The backend's full-output tuple `(xopt, fopt, iter, funcalls, warnflag)`. */
  datatype Return = Return(xopt: Vector, fopt: Scalar, iter: int, funcalls: int, warnflag: int)

  /** `opt_simplex.opt`: calls the backend (which receives `f`, not checked
      here) and copies the optimum, its value and the evaluation count. */
  function Run(c: Config, backend: (Vector, map<string, Value>) -> Return): (r: Result<Outcome, Error>)
    ensures r.Success? <==> -3 <= backend(c.xInit, Kwargs(c)).warnflag < 3
    ensures r.Failure? ==> r.error.IndexError?
    ensures r.Success? ==>
      var ret := backend(c.xInit, Kwargs(c));
      && r.value.xOpt == ret.xopt
      && r.value.fOpt == ret.fopt
      && r.value.functEval == ret.funcalls
      && Status(ret.warnflag) == Success(r.value.status)
      && r.value.trace.None?
  {
    var ret := backend(c.xInit, Kwargs(c));
    match Status(ret.warnflag)
    case Failure(e) => Failure(e)
    case Success(s) => Success(Outcome(ret.xopt, ret.fopt, ret.funcalls, s, None))
  }

  /** A successful run reports one of the three table entries and nothing
      else. */
  lemma RunStatusInTable(c: Config, backend: (Vector, map<string, Value>) -> Return)
    requires Run(c, backend).Success?
    ensures Run(c, backend).value.status in Statuses
  {
  }

  /** For a constructed configuration the backend is silent and its
      evaluation budget is `max_iters`. */
  lemma NormalisedCall(c: Config)
    requires Normalised(c)
    ensures Kwargs(c)["disp"] == Flag(false)
    ensures Kwargs(c)["maxfun"] == Int(c.maxIters)
  {
  }

  /** Every tolerance the caller sets is either forwarded or reported as
      ignored; none makes the adapter fail. */
  lemma EveryToleranceHandled(c: Config)
    ensures c.xtol.Some? ==> "xtol" in Kwargs(c)
    ensures c.ftol.Some? ==> "ftol" in Kwargs(c)
    ensures c.gtol.Some? ==> "gtol" in Ignored(c)
  {
  }
}
