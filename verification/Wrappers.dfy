/** The optional value used wherever the source says `X | None`, and the few functions on numbers and slices that
    several parts of the model share. */
module Wrappers {
  datatype Option<+T> = None | Some(value: T)

  function Min(a: int, b: int): int { if a <= b then a else b }

  function Max(a: int, b: int): int { if a >= b then a else b }

  function Pow2(n: nat): nat { if n == 0 then 1 else 2 * Pow2(n - 1) }

  // xs[:k] in Python: a negative k counts from the end.
  function PyTake<T>(xs: seq<T>, k: int): seq<T> {
    if k >= 0 then xs[..Min(k, |xs|)] else xs[..Max(0, |xs| + k)]
  }

  // xs[-k:] in Python: all of xs for k = 0, and xs without its first -k elements for a negative k.
  function PyLast<T>(xs: seq<T>, k: int): seq<T> {
    if k > 0 then xs[Max(0, |xs| - k)..] else xs[Min(-k, |xs|)..]
  }
}
