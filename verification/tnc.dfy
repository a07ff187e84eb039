/** The `opt_tnc` adapter: translates the configuration into keyword
    arguments for SciPy's truncated-Newton routine and decodes its return
    tuple. The routine itself is a parameter of `Run`. */
module Tnc {
  import opened Wrappers
  import opened Exceptions
  import opened Optimizer
  import PyList

  const Name: string := "TNC (Scipy implementation)"

  /** The return-code table, indexed by the backend's return code. */
  const RcStrings: seq<string> := [
    "Local minimum", "Converged", "XConverged",
    "Maximum number of f evaluations reached",
    "Line search failed", "Function is constant"]

  /** The tolerances forwarded to the backend, each only when set; the
      gradient tolerance travels under the name `pgtol`. */
  function OptDict(c: Config): (d: map<string, Value>)
    ensures d.Keys <= {"xtol", "ftol", "pgtol"}
    ensures "xtol" in d <==> c.xtol.Some?
    ensures "ftol" in d <==> c.ftol.Some?
    ensures "pgtol" in d <==> c.gtol.Some?
    ensures c.xtol.Some? ==> d["xtol"] == Num(c.xtol.value)
    ensures c.ftol.Some? ==> d["ftol"] == Num(c.ftol.value)
    ensures c.gtol.Some? ==> d["pgtol"] == Num(c.gtol.value)
  {
    var d0: map<string, Value> := map[];
    var d1 := if c.xtol.Some? then d0["xtol" := Num(c.xtol.value)] else d0;
    var d2 := if c.ftol.Some? then d1["ftol" := Num(c.ftol.value)] else d1;
    if c.gtol.Some? then d2["pgtol" := Num(c.gtol.value)] else d2
  }

  /** Every keyword argument of the backend call: `messages` and `maxfun`
      given explicitly, then the unpacked tolerance dictionary. No name is
      given twice, so the call never raises `TypeError`. */
  function Kwargs(c: Config): (kw: map<string, Value>)
    ensures {"messages", "maxfun"} !! OptDict(c).Keys
    ensures kw.Keys == {"messages", "maxfun"} + OptDict(c).Keys
    ensures kw["messages"] == Flag(c.messages)
    ensures kw["maxfun"] == Int(c.maxFEval)
    ensures forall k :: k in OptDict(c) ==> kw[k] == OptDict(c)[k]
  {
    map["messages" := Flag(c.messages), "maxfun" := Int(c.maxFEval)] + OptDict(c)
  }

  /** The status string for a return code, under list-subscript rules. */
  function Status(rc: int): (r: Result<string, Error>)
    ensures r.Success? <==> -6 <= rc < 6
    ensures r.Failure? ==> r.error.IndexError?
    ensures 0 <= rc < 6 ==> r == Success(RcStrings[rc])
    ensures -6 <= rc < 0 ==> r == Success(RcStrings[rc + 6])
  {
    PyList.Index(RcStrings, rc)
  }

  /** The backend's return tuple `(x, nfeval, rc)`. */
  datatype Return = Return(x: Vector, nfeval: int, rc: int)

  /** `opt_tnc.opt`: requires `f_fp`, calls the backend with the translated
      arguments, re-evaluates the objective at the returned point and
      decodes the return code. */
  function Run(c: Config, fFp: Option<ObjectiveAndGradient>,
               backend: (Vector, map<string, Value>) -> Return): (r: Result<Outcome, Error>)
    ensures fFp.None? ==> r == Failure(AssertionError("TNC requires f_fp"))
    ensures fFp.Some? ==> (r.Success? <==> -6 <= backend(c.xInit, Kwargs(c)).rc < 6)
    ensures fFp.Some? && r.Failure? ==> r.error.IndexError?
    ensures r.Success? ==>
      var ret := backend(c.xInit, Kwargs(c));
      && fFp.Some?
      && r.value.xOpt == ret.x
      && r.value.fOpt == fFp.value(ret.x).0
      && r.value.functEval == ret.nfeval
      && Status(ret.rc) == Success(r.value.status)
      && r.value.trace.None?
  {
    if fFp.None? then Failure(AssertionError("TNC requires f_fp"))
    else
      var ret := backend(c.xInit, Kwargs(c));
      match Status(ret.rc)
      case Failure(e) => Failure(e)
      case Success(s) => Success(Outcome(ret.x, fFp.value(ret.x).0, ret.nfeval, s, None))
  }

  /** For a constructed configuration the backend is always told to be
      silent and its evaluation budget is `max_iters`. */
  lemma NormalisedCall(c: Config)
    requires Normalised(c)
    ensures Kwargs(c)["messages"] == Flag(false)
    ensures Kwargs(c)["maxfun"] == Int(c.maxIters)
  {
  }

  /** A successful run reports one of the six table entries and nothing
      else. */
  lemma RunStatusInTable(c: Config, fFp: Option<ObjectiveAndGradient>,
                         backend: (Vector, map<string, Value>) -> Return)
    requires Run(c, fFp, backend).Success?
    ensures Run(c, fFp, backend).value.status in RcStrings
  {
  }

  /** The documented return codes 0..5 name themselves; -1 wraps to the
      last entry, and 6 and above raise. */
  lemma StatusTable()
    ensures Status(1) == Success("Converged")
    ensures Status(3) == Success("Maximum number of f evaluations reached")
    ensures Status(-1) == Success("Function is constant")
    ensures forall rc :: rc >= 6 ==> Status(rc).Failure?
  {
  }
}
