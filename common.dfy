/**
 * Shared value types: the Python code signals failure by raising, which the
 * model turns into a `Result`; `Optional[...]` fields become `Option`.
 */
module Common {

  datatype Option<T> = None | Some(value: T)

  /** The outcome of a Python call that either returns a value or raises. */
  datatype Result<T> = Success(value: T) | Failure(error: string)
  {
    predicate IsFailure()
    {
      Failure?
    }

    function PropagateFailure<U>(): Result<U>
      requires Failure?
    {
      Failure(error)
    }

    function Extract(): T
      requires Success?
    {
      value
    }
  }

  /** The end index Python uses for the slice `s[:n]` of a sequence of length `len`. */
  function SliceEnd(len: nat, n: int): (e: nat)
    ensures e <= len
    ensures n >= 0 ==> e <= n
  {
    if n >= 0 then (if n < len then n else len)
    else if len + n > 0 then len + n
    else 0
  }

  /** Python's `s[:n]`, including its reading of a negative `n` as "all but the last -n". */
  function PyPrefix<T>(s: seq<T>, n: int): seq<T>
  {
    s[..SliceEnd(|s|, n)]
  }

  /** For a non-negative bound, `s[:n]` keeps exactly the first min(n, |s|) elements. */
  lemma PyPrefixNonNegative<T>(s: seq<T>, n: int)
    requires n >= 0
    ensures |PyPrefix(s, n)| == (if n < |s| then n else |s|)
    ensures forall i :: 0 <= i < |PyPrefix(s, n)| ==> PyPrefix(s, n)[i] == s[i]
    ensures n >= |s| ==> PyPrefix(s, n) == s
  {
  }
}
