/** A value that may be missing, and what every sequence that is not empty has. */
module Wrappers {

  datatype Option<+T> = None | Some(value: T)

  lemma SomeElement<T>(s: seq<T>)
    ensures s != [] ==> exists x :: x in s
  {
    if s != [] {
      assert s[0] in s;
    }
  }
}
