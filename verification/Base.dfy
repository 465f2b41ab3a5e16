/** Shared vocabulary. */
module Base {
  datatype Option<+T> = None | Some(value: T)

  /** The bytes of a file or an object; each character stands for one byte. */
  type Bytes = string

  function Max(a: int, b: int): int { if a >= b then a else b }

  lemma SubsetSize<T>(a: set<T>, b: set<T>)
    requires a <= b
    ensures |a| <= |b|
  {
    if a != {} {
      var x :| x in a;
      SubsetSize(a - {x}, b - {x});
    }
  }
}
