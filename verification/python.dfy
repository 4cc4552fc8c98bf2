/** The two pieces of Python semantics the raycaster depends on: `int()`
    applied to a float, and indexing a list or a string with an index that
    may be negative. */
module Python {

  /** A value, or the IndexError Python raises (which ends the program,
      since nothing in the raycaster catches it). */
  datatype Outcome<+T> = Ok(value: T) | IndexError

  /** `int(x)` on a float: truncation toward zero, which is not `floor`
      for negative x. */
  function Trunc(x: real): (r: int)
    ensures 0.0 <= x ==> 0 <= r && r as real <= x < r as real + 1.0
    ensures x < 0.0 ==> r <= 0 && r as real - 1.0 < x <= r as real
  {
    if x >= 0.0 then x.Floor else -((-x).Floor)
  }

  /** `int()` keeps the order of non-negative floats. */
  lemma TruncMonotone(x: real, y: real)
    requires 0.0 <= x <= y
    ensures Trunc(x) <= Trunc(y)
  {
  }

  /** `s[i]` on a Python list or string: a negative i counts from the end,
      and an i outside [-len(s), len(s)) raises IndexError. */
  function Index<T>(s: seq<T>, i: int): (r: Outcome<T>)
    ensures r.Ok? <==> -|s| <= i < |s|
    ensures r.Ok? ==> r.value == s[i % |s|]
  {
    if 0 <= i < |s| then Ok(s[i])
    else if -|s| <= i < 0 then Ok(s[|s| + i])
    else IndexError
  }
}
