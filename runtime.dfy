/**
 * The few pieces of the Python runtime that the extension's behaviour depends on:
 * `None`, the exceptions that escape its functions, and list indexing and slicing.
 */
module Runtime {

  /** Python's `None` versus a present value. */
  datatype Option<+T> = None | Some(value: T)

  /** The exceptions the modelled code can raise and not catch. */
  datatype Error =
    | IndexError      // a list index out of range, including `x.split(':')[1]` on a part without ':'
    | KeyError        // a missing dictionary key
    | TypeError       // a call with the wrong number of arguments, or `None[...]`
    | AttributeError  // `None.attr`

  /** A call that either returns a value or raises. */
  datatype Result<+T> = Ok(value: T) | Raised(error: Error)

  /** Python's `s[i]`, where a negative `i` counts from the end. */
  function Index<T>(s: seq<T>, i: int): (r: Option<T>)
    ensures r.Some? <==> -|s| <= i < |s|
    ensures 0 <= i < |s| ==> r == Some(s[i])
    ensures -|s| <= i < 0 ==> r == Some(s[|s| + i])
  {
    if 0 <= i < |s| then Some(s[i])
    else if -|s| <= i < 0 then Some(s[|s| + i])
    else None
  }

  function Min(a: int, b: int): int { if a <= b then a else b }

  /** Python's `s[lo:hi]` for non-negative bounds: both ends are cut to the length. */
  function Slice<T>(s: seq<T>, lo: nat, hi: nat): (r: seq<T>)
    ensures |r| == if lo <= hi && lo <= |s| then Min(hi, |s|) - lo else 0
    ensures forall i :: 0 <= i < |r| ==> r[i] == s[lo + i]
  {
    if lo <= hi && lo <= |s| then s[lo..Min(hi, |s|)] else []
  }
}
