/** The `opt_lbfgsb` adapter: translates the configuration into keyword
    arguments for SciPy's L-BFGS-B routine and decodes its return tuple.
    The routine itself is a parameter of `Run`. */
module Lbfgsb {
  import opened Wrappers
  import opened Exceptions
  import opened Optimizer
  import PyList

  const Name: string := "L-BFGS-B (Scipy implementation)"

  /** The status table, indexed by the backend's `warnflag`. */
  const RcStrings: seq<string> := [
    "Converged", "Maximum number of f evaluations reached", "Error"]

  /** The backend's verbosity: 1 when messages are on, -1 otherwise. */
  function Iprint(c: Config): (level: int)
    ensures level == 1 || level == -1
    ensures level == 1 <==> c.messages
  {
    if c.messages then 1 else -1
  }

  /** The options the backend accepts: `pgtol` from the gradient tolerance
      and `factr` from `bfgs_factor`, each only when set. */
  function OptDict(c: Config): (d: map<string, Value>)
    ensures d.Keys <= {"pgtol", "factr"}
    ensures "pgtol" in d <==> c.gtol.Some?
    ensures "factr" in d <==> c.bfgsFactor.Some?
    ensures c.gtol.Some? ==> d["pgtol"] == Num(c.gtol.value)
    ensures c.bfgsFactor.Some? ==> d["factr"] == Num(c.bfgsFactor.value)
  {
    var d0: map<string, Value> := map[];
    var d1 := if c.gtol.Some? then d0["pgtol" := Num(c.gtol.value)] else d0;
    if c.bfgsFactor.Some? then d1["factr" := Num(c.bfgsFactor.value)] else d1
  }

  /** The tolerances the backend has no argument for: a warning is printed
      for each set one, in this order, and its value is dropped. */
  function Ignored(c: Config): (names: seq<string>)
    ensures "xtol" in names <==> c.xtol.Some?
    ensures "ftol" in names <==> c.ftol.Some?
    ensures forall k :: k in names ==> k == "xtol" || k == "ftol"
    ensures |names| <= 2
    ensures |names| == (if c.xtol.Some? then 1 else 0) + (if c.ftol.Some? then 1 else 0)
    ensures |names| == 2 ==> names == ["xtol", "ftol"]
    ensures forall k :: k in names ==> k !in OptDict(c)
  {
    (if c.xtol.Some? then ["xtol"] else []) + (if c.ftol.Some? then ["ftol"] else [])
  }

  /** Every keyword argument of the backend call: `iprint` and `maxfun`
      (the iteration budget, not the evaluation budget), then the unpacked
      option dictionary, with no name given twice. */
  function Kwargs(c: Config): (kw: map<string, Value>)
    ensures {"iprint", "maxfun"} !! OptDict(c).Keys
    ensures kw.Keys == {"iprint", "maxfun"} + OptDict(c).Keys
    ensures "xtol" !in kw && "ftol" !in kw
    ensures kw["iprint"] == Int(Iprint(c))
    ensures kw["maxfun"] == Int(c.maxIters)
    ensures forall k :: k in OptDict(c) ==> kw[k] == OptDict(c)[k]
  {
    map["iprint" := Int(Iprint(c)), "maxfun" := Int(c.maxIters)] + OptDict(c)
  }

  /** The status for a `warnflag`: the table entry, except that flag 2 gets
      the backend's `task` text appended to "Error". */
  function Status(warnflag: int, task: string): (r: Result<string, Error>)
    ensures r.Success? <==> -3 <= warnflag < 3
    ensures r.Failure? ==> r.error.IndexError?
    ensures warnflag == 2 ==> r == Success("Error" + task)
    ensures 0 <= warnflag < 2 ==> r == Success(RcStrings[warnflag])
    ensures -3 <= warnflag < 0 ==> r == Success(RcStrings[warnflag + 3])
  {
    match PyList.Index(RcStrings, warnflag)
    case Failure(e) => Failure(e)
    case Success(s) => Success(if warnflag == 2 then "Error" + task else s)
  }

  /** The backend's information dictionary, reduced to the entries read. */
  datatype Info = Info(funcalls: int, warnflag: int, task: string)

  /** The backend's return tuple `(x, f, info)`. */
  datatype Return = Return(x: Vector, f: Scalar, info: Info)

  /** `opt_lbfgsb.opt`: requires `f_fp`, calls the backend, re-evaluates the
      objective at the returned point and decodes the warning flag. */
  function Run(c: Config, fFp: Option<ObjectiveAndGradient>,
               backend: (Vector, map<string, Value>) -> Return): (r: Result<Outcome, Error>)
    ensures fFp.None? ==> r == Failure(AssertionError("BFGS requires f_fp"))
    ensures fFp.Some? ==> (r.Success? <==> -3 <= backend(c.xInit, Kwargs(c)).info.warnflag < 3)
    ensures fFp.Some? && r.Failure? ==> r.error.IndexError?
    ensures r.Success? ==>
      var ret := backend(c.xInit, Kwargs(c));
      && fFp.Some?
      && r.value.xOpt == ret.x
      && r.value.fOpt == fFp.value(ret.x).0
      && r.value.functEval == ret.info.funcalls
      && Status(ret.info.warnflag, ret.info.task) == Success(r.value.status)
      && r.value.trace.None?
  {
    if fFp.None? then Failure(AssertionError("BFGS requires f_fp"))
    else
      var ret := backend(c.xInit, Kwargs(c));
      match Status(ret.info.warnflag, ret.info.task)
      case Failure(e) => Failure(e)
      case Success(s) => Success(Outcome(ret.x, fFp.value(ret.x).0, ret.info.funcalls, s, None))
  }

  /** A successful run reports a table entry or "Error" followed by the
      backend's task text, and nothing else. */
  lemma RunStatusInVocabulary(c: Config, fFp: Option<ObjectiveAndGradient>,
                              backend: (Vector, map<string, Value>) -> Return)
    requires Run(c, fFp, backend).Success?
    ensures var ret := backend(c.xInit, Kwargs(c));
      var s := Run(c, fFp, backend).value.status;
      s in RcStrings || s == "Error" + ret.info.task
  {
  }

  /** For a constructed configuration the backend always runs silently. */
  lemma NormalisedCall(c: Config)
    requires Normalised(c)
    ensures Kwargs(c)["iprint"] == Int(-1)
  {
  }

  /** Every tolerance the caller sets is either forwarded or reported as
      ignored; none makes the adapter fail. */
  lemma EveryToleranceHandled(c: Config)
    ensures c.xtol.Some? ==> "xtol" in Ignored(c)
    ensures c.ftol.Some? ==> "ftol" in Ignored(c)
    ensures c.gtol.Some? ==> "pgtol" in Kwargs(c)
  {
  }

  /** Only flag 2 carries the task text: flag -1 reads the same entry but
      yields the bare "Error". */
  lemma StatusTable(task: string)
    ensures Status(0, task) == Success("Converged")
    ensures Status(1, task) == Success("Maximum number of f evaluations reached")
    ensures Status(2, task) == Success("Error" + task)
    ensures Status(-1, task) == Success("Error")
  {
  }
}
