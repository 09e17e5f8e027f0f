/** The optional values of the TypeScript source (`x?: T`, `undefined`). */
module Wrappers {

  datatype Option<+T> = None | Some(value: T)

  /** The last element of a non-empty sequence. */
  function Last<T>(s: seq<T>): T
    requires |s| > 0
  {
    s[|s| - 1]
  }

  lemma LastConcat<T>(a: seq<T>, b: seq<T>)
    requires |b| > 0
    ensures Last(a + b) == Last(b)
  {
  }
}
