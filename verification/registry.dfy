/** `get_optimizer`: resolves a short name to an adapter by case-insensitive
    substring search over the registered keys, in registration order. */
module Registry {
  import opened Wrappers
  import opened Exceptions
  import opened Ascii

  /** The adapter classes that can be looked up, named after `opt_tnc`,
      `opt_simplex`, `opt_lbfgsb`, `opt_SCG` and `Opt_Adadelta`. */
  datatype Variant = OptTnc | OptSimplex | OptLbfgsb | OptScg | OptAdadelta

  /** The registered keys, in the dictionary's insertion order. */
  const Entries: seq<(string, Variant)> := [
    ("fmin_tnc", OptTnc), ("simplex", OptSimplex), ("lbfgsb", OptLbfgsb),
    ("scg", OptScg), ("adadelta", OptAdadelta)]

  /** The key's lower-case form contains the query's lower-case form. */
  predicate Matches(key: string, query: string) {
    Find(Lower(key), Lower(query)) != -1
  }

  /** The message of the `KeyError` raised when nothing matches; it quotes
      the query as given. */
  function NotFound(query: string): Error {
    KeyError("No optimizer was found matching the name: " + query)
  }

  /** The position of the first of `Entries[from..]` whose key matches, or
      `|Entries|` when none does. */
  function FirstMatchFrom(query: string, from: nat): (i: nat)
    requires from <= |Entries|
    decreases |Entries| - from
    ensures from <= i <= |Entries|
    ensures i < |Entries| ==> Matches(Entries[i].0, query)
    ensures forall j :: from <= j < i ==> !Matches(Entries[j].0, query)
  {
    if from == |Entries| then from
    else if Matches(Entries[from].0, query) then from
    else FirstMatchFrom(query, from + 1)
  }

  /** `get_optimizer(query)`: the variant of the first matching key, or
      `KeyError` when no key matches. */
  function Lookup(query: string): (r: Result<Variant, Error>)
    ensures r.Failure? <==> forall i :: 0 <= i < |Entries| ==> !Matches(Entries[i].0, query)
    ensures r.Failure? ==> r.error == NotFound(query)
    ensures r.Success? ==> exists i :: (0 <= i < |Entries| && Matches(Entries[i].0, query)
      && Entries[i].1 == r.value
      && forall j :: 0 <= j < i ==> !Matches(Entries[j].0, query))
  {
    var i := FirstMatchFrom(query, 0);
    if i == |Entries| then Failure(NotFound(query)) else Success(Entries[i].1)
  }

  /** The lookup loop as written: scan the keys in order and return at the
      first whose lower-case form contains the lower-case query. */
  method GetOptimizer(query: string) returns (r: Result<Variant, Error>)
    ensures r == Lookup(query)
  {
    var q := Lower(query);
    var i := 0;
    while i < |Entries|
      invariant 0 <= i <= |Entries|
      invariant FirstMatchFrom(query, i) == FirstMatchFrom(query, 0)
    {
      if Find(Lower(Entries[i].0), q) != -1 {
        return Success(Entries[i].1);
      }
      i := i + 1;
    }
    return Failure(NotFound(query));
  }

  /** Two queries equal up to letter case resolve to the same variant, or
      both fail; only the error message, which quotes the query, differs. */
  lemma LookupIgnoresCase(q1: string, q2: string)
    requires SameIgnoringCase(q1, q2)
    ensures Lookup(q1).Success? <==> Lookup(q2).Success?
    ensures Lookup(q1).Success? ==> Lookup(q1).value == Lookup(q2).value
  {
    LowerEqualIffSameIgnoringCase(q1, q2);
    assert forall i :: 0 <= i < |Entries| ==> (Matches(Entries[i].0, q1) <==> Matches(Entries[i].0, q2));
    assert FirstMatchFrom(q1, 0) == FirstMatchFrom(q2, 0) by {
      FirstMatchDependsOnlyOnLower(q1, q2, 0);
    }
  }

  /** The scan reads the query only through its lower-case form. */
  lemma {:induction false} FirstMatchDependsOnlyOnLower(q1: string, q2: string, from: nat)
    requires from <= |Entries|
    requires Lower(q1) == Lower(q2)
    decreases |Entries| - from
    ensures FirstMatchFrom(q1, from) == FirstMatchFrom(q2, from)
  {
    if from < |Entries| {
      FirstMatchDependsOnlyOnLower(q1, q2, from + 1);
    }
  }

  /** The lookup returns the variant of entry `i` when that key matches and
      no earlier one does. */
  lemma {:induction false} LookupReturnsFirstMatch(query: string, i: nat, from: nat)
    requires from <= i < |Entries|
    requires Matches(Entries[i].0, query)
    requires forall j :: from <= j < i ==> !Matches(Entries[j].0, query)
    decreases i - from
    ensures FirstMatchFrom(query, from) == i
  {
    if from < i {
      LookupReturnsFirstMatch(query, i, from + 1);
    }
  }

  /** Each registered key, looked up verbatim, resolves to its own class:
      no earlier key contains a later one. */
  lemma KeysResolveToThemselves()
    ensures forall i :: 0 <= i < |Entries| ==> Lookup(Entries[i].0) == Success(Entries[i].1)
  {
    forall i | 0 <= i < |Entries|
      ensures Lookup(Entries[i].0) == Success(Entries[i].1)
    {
      KeyResolves(i);
    }
  }

  /** Key `i` matches itself and no earlier key contains it. */
  lemma KeyResolves(i: nat)
    requires i < |Entries|
    ensures Lookup(Entries[i].0) == Success(Entries[i].1)
  {
    var k := Entries[i].0;
    KeyIsFolded(i);
    FindSelf(k);
    assert Matches(k, k);
    forall j | 0 <= j < i
      ensures !Matches(Entries[j].0, k)
    {
      KeyIsFolded(j);
      EarlierKeyLacksLater(j, i);
    }
    LookupReturnsFirstMatch(k, i, 0);
  }

  /** No key contains a key registered after it: each later key has a
      character the earlier one lacks. */
  lemma EarlierKeyLacksLater(j: nat, i: nat)
    requires j < i < |Entries|
    ensures Find(Entries[j].0, Entries[i].0) == -1
  {
    if i == 1 {
      FindAbsentChar("fmin_tnc", "simplex", 0);         // 's'
    } else if i == 2 && j == 0 {
      FindAbsentChar("fmin_tnc", "lbfgsb", 0);          // 'l'
    } else if i == 2 {
      FindAbsentChar("simplex", "lbfgsb", 2);           // 'f'
    } else if i == 3 && j == 0 {
      FindAbsentChar("fmin_tnc", "scg", 2);             // 'g'
    } else if i == 3 {
      FindAbsentChar(Entries[j].0, "scg", 1);           // 'c', in neither "simplex" nor "lbfgsb"
    } else {
      FindAbsentChar(Entries[j].0, "adadelta", 0);      // 'a', in no earlier key
    }
  }

  /** The registered keys contain no upper-case letter. */
  lemma KeyIsFolded(i: nat)
    requires i < |Entries|
    ensures Lower(Entries[i].0) == Entries[i].0
  {
    if i == 0 {
      LowerOfFolded("fmin_tnc");
    } else if i == 1 {
      LowerOfFolded("simplex");
    } else if i == 2 {
      LowerOfFolded("lbfgsb");
    } else if i == 3 {
      LowerOfFolded("scg");
    } else {
      LowerOfFolded("adadelta");
    }
  }

  /** Every spelling of a registered key, in any mix of letter case,
      resolves to that key's class. */
  lemma AnySpellingOfKeyResolves(query: string, i: nat)
    requires i < |Entries|
    requires SameIgnoringCase(query, Entries[i].0)
    ensures Lookup(query) == Success(Entries[i].1)
  {
    KeyResolves(i);
    LookupIgnoresCase(query, Entries[i].0);
  }

  /** A query longer than every key is contained in none of them, so it
      raises `KeyError`, quoting the query. */
  lemma OverlongQueryRaises(query: string)
    requires |query| > 8
    ensures Lookup(query) == Failure(NotFound(query))
  {
    forall i | 0 <= i < |Entries|
      ensures !Matches(Entries[i].0, query)
    {
      KeyFitsInEight(i);
      FindBounds(Lower(Entries[i].0), Lower(query));
    }
  }

  /** The longest key, `fmin_tnc` or `adadelta`, has eight characters. */
  lemma KeyFitsInEight(i: nat)
    requires i < |Entries|
    ensures |Entries[i].0| <= 8
  {
  }

  /** The empty query is contained in every key, so it resolves to the
      first one. */
  lemma EmptyQueryResolvesToFirst()
    ensures Lookup("") == Success(OptTnc)
  {
    KeyIsFolded(0);
    FindBounds("fmin_tnc", "");
    LookupReturnsFirstMatch("", 0, 0);
  }

  /** A fragment resolves to the first key containing it: "bfgs" lies
      inside "lbfgsb" and inside no earlier key. */
  lemma FragmentResolves(query: string)
    requires Lower(query) == "bfgs"
    ensures Lookup(query) == Success(OptLbfgsb)
  {
    BfgsMissesTnc(query);
    BfgsMissesSimplex(query);
    BfgsHitsLbfgsb(query);
    LookupReturnsFirstMatch(query, 2, 0);
  }

  /** "fmin_tnc" has no 'b'. */
  lemma BfgsMissesTnc(query: string)
    requires Lower(query) == "bfgs"
    ensures !Matches(Entries[0].0, query)
  {
    KeyIsFolded(0);
    FindAbsentChar("fmin_tnc", "bfgs", 0);
  }

  /** "simplex" has no 'b'. */
  lemma BfgsMissesSimplex(query: string)
    requires Lower(query) == "bfgs"
    ensures !Matches(Entries[1].0, query)
  {
    KeyIsFolded(1);
    FindAbsentChar("simplex", "bfgs", 0);
  }

  /** "bfgs" starts at position 1 of "lbfgsb". */
  lemma BfgsHitsLbfgsb(query: string)
    requires Lower(query) == "bfgs"
    ensures Matches(Entries[2].0, query)
  {
    KeyIsFolded(2);
    assert OccursAt("lbfgsb", "bfgs", 1);
  }

  /** Lookups of fixed names: the upper-case spelling of a key, and a name
      no key contains. */
  lemma NamedExamples()
    ensures Lookup("LBFGSB") == Success(OptLbfgsb)
    ensures Lookup("doesnotexist").Failure?
  {
    AnySpellingOfKeyResolves("LBFGSB", 2);
    OverlongQueryRaises("doesnotexist");
  }
}
