module Sequences {
  /** Concatenation is associative; said by name where the solver would search for it. */
  lemma Associates<T>(a: seq<T>, b: seq<T>, c: seq<T>)
    ensures a + (b + c) == a + b + c
  {
  }
}
