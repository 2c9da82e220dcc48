/** Value types shared by every part of the model. */
module Types {

  /** A byte as the reader driver hands it out: a Python int in 0..255. */
  type byte = x: int | 0 <= x < 256

  datatype Option<+T> = None | Some(value: T)

  /**
   * What one call of a fallible operation did: it returned a value, or it
   * raised an exception (the fault stands for the exception object).
   */
  datatype Attempt<+T, +E> = Returned(value: T) | Raised(error: E)

  /** The scanner's two operating modes: "read" (allow/deny) and "write" (enroll). */
  datatype Mode = Read | Write

  /** `n` copies of `x`: Python's `[x] * n`, which is empty for `n <= 0`. */
  function Copies<T>(x: T, n: int): (r: seq<T>)
    ensures |r| == (if n <= 0 then 0 else n)
    ensures forall i :: 0 <= i < |r| ==> r[i] == x
  {
    if n <= 0 then [] else seq(n, _ => x)
  }
}
