/** The optional value and the sequence fact shared by both injectors'
    models. */
module Wrappers {
  datatype Option<T> = None | Some(value: T)

  /** Concatenation regroups freely. */
  lemma Associative<T>(a: seq<T>, b: seq<T>, c: seq<T>)
    ensures (a + b) + c == a + (b + c)
  {
  }
}
