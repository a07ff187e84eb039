/** Python list subscription `xs[i]`: indices from `-len(xs)` to
    `len(xs) - 1` are valid, a negative index counts from the end, and any
    other index raises `IndexError`. Every status table of the adapters and
    the `trace[-1]` of the SCG adapter are read through this function. */
module PyList {
  import opened Wrappers
  import opened Exceptions

  /** True when `i` is a valid Python subscript of a list of length `n`. */
  predicate InRange(n: nat, i: int) {
    -(n as int) <= i < n
  }

  /** The non-negative position a valid subscript denotes. */
  function Position(n: nat, i: int): (p: nat)
    requires InRange(n, i)
    ensures p < n
    ensures p == i || p == i + n
  {
    if i < 0 then i + n else i
  }

  /** `xs[i]` under Python semantics. */
  function Index<T>(xs: seq<T>, i: int): (r: Result<T, Error>)
    ensures r.Success? <==> InRange(|xs|, i)
    ensures r.Failure? ==> r.error == IndexError(ListIndexOutOfRange)
    ensures 0 <= i < |xs| ==> r == Success(xs[i])
    ensures -|xs| <= i < 0 ==> r == Success(xs[|xs| + i])
  {
    if InRange(|xs|, i) then Success(xs[Position(|xs|, i)])
    else Failure(IndexError(ListIndexOutOfRange))
  }

  /** A negative subscript and the non-negative one `len(xs)` above it read
      the same entry. */
  lemma NegativeAliasesPositive<T>(xs: seq<T>, k: int)
    requires 0 <= k < |xs|
    ensures Index(xs, k - |xs|) == Index(xs, k)
    ensures Index(xs, k - |xs|).Success?
  {
  }

  /** `xs[-1]` is the last element, and raises exactly when `xs` is empty. */
  lemma LastElement<T>(xs: seq<T>)
    ensures Index(xs, -1).Success? <==> |xs| > 0
    ensures |xs| > 0 ==> Index(xs, -1) == Success(xs[|xs| - 1])
  {
  }
}
