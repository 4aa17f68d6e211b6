/** The optional value used wherever the program returns NULL or leaves a file absent, and laws of
    sequences that several modules need. */
module Wrappers {

  datatype Option<+T> = None | Some(value: T)

  lemma Associative<T>(a: seq<T>, b: seq<T>, c: seq<T>)
    ensures (a + b) + c == a + (b + c)
  {
  }

  lemma EmptyFront<T>(s: seq<T>)
    ensures [] + s == s
  {
  }
}
