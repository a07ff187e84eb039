# Optimizer adapters of `mzparam.optimization` in Dafny

This project models the decision logic of the optimizer adapter layer in
`mzparam/optimization/optimization.py`. The layer wraps several external
minimisers: SciPy's TNC, L-BFGS-B and Nelder-Mead simplex, a scaled
conjugate gradient (SCG) routine, and climin's Adadelta. The model covers:

- **`Optimizer.__init__`**: how the constructor normalises its arguments
  (module `Optimizer`). `messages` is always switched off. The evaluation
  budget `max_f_eval` is overwritten with `int(max_iters)`.
- **Option translation** (modules `Tnc`, `Lbfgsb`, `Simplex`, `Scg`): how each
  adapter turns the configuration into keyword arguments for its backend.
  This includes which tolerances are forwarded, under which name, and which
  are dropped with a warning.
- **Status decoding**: how each backend's return code becomes a status
  string. Each table is read with Python list subscripting (module
  `PyList`), so negative codes wrap around and out-of-range codes raise
  `IndexError`. For L-BFGS-B, warnflag 2 is overridden with `'Error' + task`.
- **Result unpacking** in each adapter's `opt`. The gradient-based adapters
  check that their callbacks are present. TNC and L-BFGS-B re-evaluate the
  objective at the optimum. SCG takes `f_opt` from `trace[-1]`.
- **`get_optimizer`** (module `Registry`): a case-insensitive substring
  search over the keys `fmin_tnc`, `simplex`, `lbfgsb`, `scg`, `adadelta`.
  The keys are tried in the dictionary's insertion order, the first match
  wins, and `KeyError` is raised when nothing matches. The lookup uses
  `str.lower` and `str.find`, modelled for ASCII in module `Ascii`.

Each external routine is a function-typed parameter of `Run`. It maps the
starting point and the translated keyword arguments to the routine's return
tuple, so the model states exactly what the routine is called with and how
its answer is decoded. The caller's callbacks `f`, `fp` and `f_fp` are
`Option`s of function type. Python's `None` is `None`. A raised exception is
the `Failure` arm of a `Result`. Tolerances and objective values have type
`Scalar`; they are only passed through and never computed with.

Behaviours of the code that a reader might not expect:
- The default `max_f_eval=1e4` never takes effect. Line 65 stores
  `int(max_iters)`, so both budgets default to 1000
  (`Optimizer.DefaultBudgets`).
- The registry is a dictionary literal, and the model tries its keys in
  insertion order. Python guarantees that order only from version 3.7 on.
  CPython 3.6 keeps insertion order only as an implementation detail, and
  3.5 and earlier iterate in an order set by the key hashes. A different
  order can change the first match for a query found in several keys, such
  as "s" (simplex, lbfgsb, scg) or "c" (fmin_tnc, scg).
- A missing callback is detected with `assert`, so it raises
  `AssertionError`. The model assumes assertions are enabled.
- A negative backend code is not rejected. It wraps to the table entry
  counted from the end, so TNC code -1 reads "Function is constant" and
  L-BFGS-B warnflag -1 reads a bare "Error" (`Tnc.StatusTable`,
  `Lbfgsb.StatusTable`). Only codes outside -len..len-1 raise `IndexError`.

## Model

| member | source | states |
|---|---|---|
| PyList.Index | mzparam/optimization/optimization.py:120 | a subscript succeeds exactly from -len to len-1; a non-negative subscript reads that entry, a negative one reads the entry counted from the end; any other subscript raises IndexError |
| PyList.NegativeAliasesPositive | mzparam/optimization/optimization.py:120 | a negative subscript k-len and the non-negative k read the same entry |
| PyList.LastElement | mzparam/optimization/optimization.py:212 | `xs[-1]` succeeds exactly when the list is non-empty, and is then its last element |
| Ascii.FoldChar | mzparam/optimization/optimization.py:246 | lower-casing a character never yields an upper-case letter; it shifts A-Z by 32 and leaves every other character alone |
| Ascii.Lower | mzparam/optimization/optimization.py:246 | `lower()` keeps the length and folds each character in place |
| Ascii.LowerFixesFolded | mzparam/optimization/optimization.py:246 | lower-casing leaves a string unchanged exactly when it has no upper-case letter, and lower-casing twice is the same as once |
| Ascii.LowerEqualIffSameIgnoringCase | mzparam/optimization/optimization.py:246 | two strings have the same lower-case form if and only if they differ at most in letter case |
| Ascii.FindFrom | mzparam/optimization/optimization.py:246 | the result is -1 when the needle occurs at no position from `start` on; otherwise it is the least such position |
| Ascii.Find | mzparam/optimization/optimization.py:246 | `find` is -1 exactly when the needle occurs nowhere; otherwise it is the first position where the needle occurs |
| Ascii.FindBounds | mzparam/optimization/optimization.py:246 | the empty needle is found at 0; a needle longer than the haystack is never found |
| Optimizer.Trunc | mzparam/optimization/optimization.py:65-66 | `int()` truncates toward zero: the result is within 1 of the argument and no farther from zero |
| Optimizer.TruncOfIntegral | mzparam/optimization/optimization.py:66 | `int()` leaves an integral value unchanged |
| Optimizer.Construct | mzparam/optimization/optimization.py:55-73 | after construction messages are off, both budgets equal `int(max_iters)`, and the start point, tolerances and `bfgs_factor` are stored unchanged |
| Optimizer.ConstructIgnoresMessagesAndMaxFEval | mzparam/optimization/optimization.py:55-66 | the constructed configuration does not depend on the `messages` or `max_f_eval` argument, and it always has messages off and equal budgets |
| Optimizer.DefaultBudgets | mzparam/optimization/optimization.py:55-66 | with the default arguments both budgets are 1000, not 10000 |
| Tnc.OptDict | mzparam/optimization/optimization.py:107-113 | the dictionary has `xtol`, `ftol`, `pgtol` exactly when xtol, ftol, gtol are set, each carrying that value, and no other key |
| Tnc.Kwargs | mzparam/optimization/optimization.py:115-116 | the call receives `messages`, `maxfun` = max_f_eval and the tolerance entries; no keyword is given twice |
| Tnc.Status | mzparam/optimization/optimization.py:102-120 | decoding succeeds exactly for codes -6..5; codes 0..5 give the entry at that position, codes -6..-1 give the entry at code+6, and codes outside -6..5 raise IndexError |
| Tnc.Run | mzparam/optimization/optimization.py:97-120 | without `f_fp` the adapter raises AssertionError("TNC requires f_fp"); with it, the adapter succeeds exactly when the return code decodes and otherwise raises IndexError; on success x_opt and funct_eval come from the return tuple, f_opt is `f_fp(x_opt)[0]`, status is the decoded code, and there is no trace |
| Tnc.RunStatusInTable | mzparam/optimization/optimization.py:102-120 | every status a successful run reports is one of the six table entries |
| Tnc.NormalisedCall | mzparam/optimization/optimization.py:115-116 | for a constructed configuration the backend gets messages False and `maxfun` equal to max_iters |
| Tnc.StatusTable | mzparam/optimization/optimization.py:102-120 | code 1 is "Converged", code 3 is the evaluation limit, -1 wraps to "Function is constant", and codes 6 and above raise |
| Lbfgsb.Iprint | mzparam/optimization/optimization.py:136-139 | the verbosity is 1 exactly when messages are on, otherwise -1 |
| Lbfgsb.OptDict | mzparam/optimization/optimization.py:146-149 | the dictionary has `pgtol` exactly when gtol is set and `factr` exactly when bfgs_factor is set, each carrying that value, and no other key |
| Lbfgsb.Ignored | mzparam/optimization/optimization.py:142-145 | xtol and ftol are reported as ignored exactly when they are set, each once, xtol before ftol; nothing else is reported, and nothing reported is forwarded |
| Lbfgsb.Kwargs | mzparam/optimization/optimization.py:151-152 | the call receives `iprint`, `maxfun` = max_iters and the option entries, never `xtol` or `ftol`, and no keyword twice |
| Lbfgsb.Status | mzparam/optimization/optimization.py:132-160 | decoding succeeds exactly for flags -3..2; flag 2 gives "Error" followed by the task text, flags 0 and 1 give their table entries, flags -3..-1 give the entry at flag+3, and flags outside -3..2 raise IndexError |
| Lbfgsb.Run | mzparam/optimization/optimization.py:127-160 | without `f_fp` the adapter raises AssertionError("BFGS requires f_fp"); with it, the adapter succeeds exactly when the warnflag decodes and otherwise raises IndexError; on success f_opt is `f_fp(x_opt)[0]` and funct_eval is the `funcalls` entry |
| Lbfgsb.RunStatusInVocabulary | mzparam/optimization/optimization.py:132-160 | every status a successful run reports is a table entry or "Error" followed by the backend's task text |
| Lbfgsb.NormalisedCall | mzparam/optimization/optimization.py:136-139 | for a constructed configuration `iprint` is -1 |
| Lbfgsb.EveryToleranceHandled | mzparam/optimization/optimization.py:141-149 | every tolerance that is set is either forwarded or reported as ignored |
| Lbfgsb.StatusTable | mzparam/optimization/optimization.py:156-160 | flags 0, 1, 2 give "Converged", the evaluation limit, and "Error" + task; flag -1 gives the bare "Error" |
| Simplex.OptDict | mzparam/optimization/optimization.py:174-178 | the dictionary has `xtol` and `ftol` exactly when they are set, each carrying that value, and no other key |
| Simplex.Ignored | mzparam/optimization/optimization.py:179-180 | gtol is reported as ignored exactly when it is set, once; nothing else is reported, and it is not forwarded |
| Simplex.Kwargs | mzparam/optimization/optimization.py:182-183 | the call receives `disp`, `maxfun` = max_f_eval, `full_output` True and the tolerance entries, never a gradient tolerance, and no keyword twice |
| Simplex.Status | mzparam/optimization/optimization.py:172-188 | decoding succeeds exactly for flags -3..2; flags 0..2 give the entry at that position, flags -3..-1 give the entry at flag+3, and flags outside -3..2 raise IndexError |
| Simplex.Run | mzparam/optimization/optimization.py:167-189 | the adapter succeeds exactly when the warnflag decodes and otherwise raises IndexError; on success x_opt, f_opt and funct_eval are the tuple's entries 0, 1 and 3, and the trace is None |
| Simplex.RunStatusInTable | mzparam/optimization/optimization.py:172-188 | every status a successful run reports is one of the three table entries |
| Simplex.NormalisedCall | mzparam/optimization/optimization.py:182-183 | for a constructed configuration `disp` is False and `maxfun` equals max_iters |
| Simplex.EveryToleranceHandled | mzparam/optimization/optimization.py:174-180 | every tolerance that is set is either forwarded or reported as ignored |
| Scg.CallArgs | mzparam/optimization/optimization.py:204-208 | the routine receives the display flag, both budgets and all three tolerances, unset ones as None |
| Scg.Run | mzparam/optimization/optimization.py:200-214 | a missing `f` or `fp` raises AssertionError; with both present the adapter succeeds exactly when the returned trace is non-empty, and otherwise raises IndexError; on success f_opt is the trace's last element, and x_opt, the trace, funct_eval and status are copied from the result |
| Scg.NormalisedCall | mzparam/optimization/optimization.py:204-208 | for a constructed configuration the routine is silent and its two budgets are equal |
| Registry.FirstMatchFrom | mzparam/optimization/optimization.py:245-247 | the result is the least position from `from` on whose key matches, or the end of the registry when none does |
| Registry.Lookup | mzparam/optimization/optimization.py:237-249 | the lookup raises KeyError, quoting the query, exactly when no key's lower-case form contains the lower-cased query; otherwise it returns the variant of the first such key in registration order |
| Registry.GetOptimizer | mzparam/optimization/optimization.py:245-249 | the scanning loop returns exactly what the lookup specifies |
| Registry.LookupIgnoresCase | mzparam/optimization/optimization.py:246 | queries that differ only in letter case both succeed with the same variant, or both fail |
| Registry.LookupReturnsFirstMatch | mzparam/optimization/optimization.py:245-247 | if key i matches and no earlier key does, the scan stops at i |
| Registry.KeysResolveToThemselves | mzparam/optimization/optimization.py:239-247 | each registered key, looked up verbatim, resolves to its own class |
| Registry.AnySpellingOfKeyResolves | mzparam/optimization/optimization.py:239-247 | any upper/lower-case spelling of a registered key resolves to that key's class |
| Registry.OverlongQueryRaises | mzparam/optimization/optimization.py:249 | a query longer than every key raises KeyError, quoting the query |
| Registry.EmptyQueryResolvesToFirst | mzparam/optimization/optimization.py:245-247 | the empty query resolves to the first key, `fmin_tnc` |
| Registry.FragmentResolves | mzparam/optimization/optimization.py:239-247 | a query whose lower-case form is "bfgs" resolves to L-BFGS-B: it lies inside "lbfgsb" and inside no earlier key |
| Registry.NamedExamples | mzparam/optimization/optimization.py:239-249 | "LBFGSB" resolves to L-BFGS-B, and "doesnotexist" raises KeyError |

## Left out

- The SciPy routines `fmin_tnc`, `fmin_l_bfgs_b` and `fmin` (lines 115, 151, 182) are parameters of each `Run`. They map the start point and the keyword arguments to a return tuple that the model does not interpret.
- The SCG routine is a parameter of `Scg.Run` in the same way. Its module `scg` is not part of this model, and its numerics are floating point.
- The callbacks that each routine receives (`f_fp` or `f`) are not part of the backend parameter's arguments. The backend function stands for the routine already applied to them. The empty positional tuple `()` passed to `fmin` is left out for the same reason.
- `Opt_Adadelta` appears only as a registry variant. Its constructor extras (`step_rate`, `decay`, `momentum`) and its loop (lines 224-235) are left out. The loop is driven by climin's iterator, whose behaviour is not visible.
- `run`'s wall-clock timing (lines 75-79) is left out because it is I/O. So is `__str__` (lines 84-90), which formats floats with `%.3f`.
- The `print` warnings of lines 143, 145 and 180 are modelled only as the list of ignored option names (`Lbfgsb.Ignored`, `Simplex.Ignored`), not as output text.
- The `FutureWarning` in the SCG constructor (line 195) only emits a warning. It is left out.
- The base class's `opt`, which raises `NotImplementedError` (line 82), is left out because it is never reached through the registry.
- The `model` constructor argument is stored but never read by the adapters, so it is left out.
- The `opt_name` strings are constants (`Tnc.Name` and so on) without a contract.
- `Optimizer.Trunc` models `int()` on a finite float. It does not model the errors `int()` raises for infinities, NaN or non-numeric arguments.
- `Lbfgsb.Status` takes the backend's `task` as the text that `str(task)` produces. It does not model how a bytes value would be rendered.
- When an adapter raises after assigning some result attributes (for example `IndexError` from a status table after `x_opt` is set), the model returns only the exception and drops the partial state.
- `Ascii.Lower` folds only ASCII letters. Python's `str.lower` also folds other Unicode letters.
- Python runs without `assert` statements under `-O`. The model assumes assertions are enabled.
